/** `get_ec2_instance_ids_by_schedule_tag`: walk the paginated
    `describe_instances` output (pages, their reservations, their instances,
    their tags) and collect the id of every instance carrying a tag whose key
    equals the schedule key exactly and whose value equals the schedule value
    ignoring case, once per instance. */
module TagSelector {
  import opened Effects
  import opened PyText

  datatype Tag = Tag(key: string, value: string)

  /** An instance as `describe_instances` lists it; `tags` is `None` when the
      response has no `Tags` entry. */
  datatype Instance = Instance(id: string, tags: Option<seq<Tag>>)

  type Reservation = seq<Instance>
  type Page = seq<Reservation>

  /** `instance.get('Tags', [])`. */
  function TagsOf(inst: Instance): seq<Tag>
  {
    match inst.tags
    case Some(ts) => ts
    case None => []
  }

  /** The test inside the tag loop. */
  predicate TagMatches(t: Tag, key: string, value: string)
  {
    t.key == key && Lower(t.value) == Lower(value)
  }

  /** Where the tag loop breaks: the index of the first matching tag, if
      any. */
  function FirstMatchingTag(tags: seq<Tag>, key: string, value: string): (r: Option<nat>)
    ensures r.Some? ==> r.value < |tags|
  {
    if |tags| == 0 then None
    else if TagMatches(tags[0], key, value) then Some(0)
    else
      match FirstMatchingTag(tags[1..], key, value)
      case Some(k) => Some(k + 1)
      case None => None
  }

  /** The loop breaks at a matching tag with no match before it, and runs to
      the end exactly when no tag matches. */
  lemma {:induction false} FirstMatchingTagMeaning(tags: seq<Tag>, key: string, value: string)
    ensures var r := FirstMatchingTag(tags, key, value);
            r.Some? ==> TagMatches(tags[r.value], key, value) &&
                        forall j :: 0 <= j < r.value ==> !TagMatches(tags[j], key, value)
    ensures FirstMatchingTag(tags, key, value).None? <==>
            forall j :: 0 <= j < |tags| ==> !TagMatches(tags[j], key, value)
  {
    if |tags| > 0 && !TagMatches(tags[0], key, value) {
      FirstMatchingTagMeaning(tags[1..], key, value);
      var r := FirstMatchingTag(tags, key, value);
      if r.Some? {
        forall j | 0 <= j < r.value ensures !TagMatches(tags[j], key, value) {
          if j > 0 {
            assert tags[j] == tags[1..][j - 1];
          }
        }
        assert tags[r.value] == tags[1..][r.value - 1];
      } else {
        forall j | 0 <= j < |tags| ensures !TagMatches(tags[j], key, value) {
          if j > 0 {
            assert tags[j] == tags[1..][j - 1];
          }
        }
      }
    }
  }

  /** The instance carries the schedule tag. */
  predicate IsScheduled(inst: Instance, key: string, value: string)
  {
    FirstMatchingTag(TagsOf(inst), key, value).Some?
  }

  /** The ids the loops append for a run of instances, in order. */
  function Select(insts: seq<Instance>, key: string, value: string): seq<string>
  {
    if |insts| == 0 then []
    else
      var last := insts[|insts| - 1];
      Select(insts[..|insts| - 1], key, value) + (if IsScheduled(last, key, value) then [last.id] else [])
  }

  /** The instances of a page in reservation order. */
  function FlattenPage(page: Page): seq<Instance>
  {
    if |page| == 0 then [] else FlattenPage(page[..|page| - 1]) + page[|page| - 1]
  }

  /** The instances of all pages in page, reservation, instance order. */
  function Flatten(pages: seq<Page>): seq<Instance>
  {
    if |pages| == 0 then [] else Flatten(pages[..|pages| - 1]) + FlattenPage(pages[|pages| - 1])
  }

  /** What the selector returns when every page is fetched. */
  function SelectedIds(pages: seq<Page>, key: string, value: string): seq<string>
  {
    Select(Flatten(pages), key, value)
  }

  /** The number of instances in all pages, counted reservation by
      reservation. */
  function InstanceCount(pages: seq<Page>): nat
  {
    if |pages| == 0 then 0 else PageCount(pages[0]) + InstanceCount(pages[1..])
  }

  function PageCount(page: Page): nat
  {
    if |page| == 0 then 0 else |page[0]| + PageCount(page[1..])
  }

  // ---------------------------------------------------------------------
  // The tag test

  /** An instance carries the schedule tag exactly when its `Tags` entry is
      present and holds a tag with the very key and the value up to case. */
  lemma ScheduledMeaning(inst: Instance, key: string, value: string)
    ensures IsScheduled(inst, key, value) <==>
            inst.tags.Some? &&
            exists j :: 0 <= j < |inst.tags.value| &&
                        inst.tags.value[j].key == key &&
                        Lower(inst.tags.value[j].value) == Lower(value)
  {
    FirstMatchingTagMeaning(TagsOf(inst), key, value);
    if IsScheduled(inst, key, value) {
      var j := FirstMatchingTag(TagsOf(inst), key, value).value;
      assert TagMatches(inst.tags.value[j], key, value);
    }
  }

  // ---------------------------------------------------------------------
  // Structure of the selection

  lemma {:induction false} SelectAppend(xs: seq<Instance>, ys: seq<Instance>, key: string, value: string)
    ensures Select(xs + ys, key, value) == Select(xs, key, value) + Select(ys, key, value)
    decreases |ys|
  {
    if |ys| == 0 {
      assert xs + ys == xs;
    } else {
      var ys' := ys[..|ys| - 1];
      assert (xs + ys)[..|xs + ys| - 1] == xs + ys';
      SelectAppend(xs, ys', key, value);
    }
  }

  lemma {:induction false} FlattenAppend(p1: seq<Page>, p2: seq<Page>)
    ensures Flatten(p1 + p2) == Flatten(p1) + Flatten(p2)
    decreases |p2|
  {
    if |p2| == 0 {
      assert p1 + p2 == p1;
    } else {
      var p2' := p2[..|p2| - 1];
      var last := p2[|p2| - 1];
      assert (p1 + p2)[..|p1 + p2| - 1] == p1 + p2';
      assert (p1 + p2)[|p1 + p2| - 1] == last;
      assert Flatten(p1 + p2) == Flatten(p1 + p2') + FlattenPage(last);
      assert Flatten(p2) == Flatten(p2') + FlattenPage(last);
      FlattenAppend(p1, p2');
      AppendAssoc(Flatten(p1), Flatten(p2'), FlattenPage(last));
    }
  }

  /** Pagination is invisible: selecting over two runs of pages is
      selecting over each and concatenating, nothing lost or repeated. */
  lemma SelectionAcrossPages(p1: seq<Page>, p2: seq<Page>, key: string, value: string)
    ensures SelectedIds(p1 + p2, key, value) == SelectedIds(p1, key, value) + SelectedIds(p2, key, value)
  {
    FlattenAppend(p1, p2);
    SelectAppend(Flatten(p1), Flatten(p2), key, value);
  }

  lemma {:induction false} FlattenPageMembership(page: Page, x: Instance)
    ensures x in FlattenPage(page) <==> exists r, i :: 0 <= r < |page| && 0 <= i < |page[r]| && page[r][i] == x
    decreases |page|
  {
    if |page| > 0 {
      var page' := page[..|page| - 1];
      FlattenPageMembership(page', x);
      if x in FlattenPage(page) {
        if x in FlattenPage(page') {
          var r, i :| 0 <= r < |page'| && 0 <= i < |page'[r]| && page'[r][i] == x;
          assert page[r][i] == x;
        } else {
          var i :| 0 <= i < |page[|page| - 1]| && page[|page| - 1][i] == x;
        }
      }
      if exists r, i :: 0 <= r < |page| && 0 <= i < |page[r]| && page[r][i] == x {
        var r, i :| 0 <= r < |page| && 0 <= i < |page[r]| && page[r][i] == x;
        if r < |page| - 1 {
          assert page'[r][i] == x;
        } else {
          assert page[r][i] in page[|page| - 1];
        }
      }
    }
  }

  lemma {:induction false} FlattenMembership(pages: seq<Page>, x: Instance)
    ensures x in Flatten(pages) <==>
            exists p, r, i :: 0 <= p < |pages| && 0 <= r < |pages[p]| && 0 <= i < |pages[p][r]| && pages[p][r][i] == x
    decreases |pages|
  {
    if |pages| > 0 {
      var pages' := pages[..|pages| - 1];
      var last := pages[|pages| - 1];
      FlattenMembership(pages', x);
      FlattenPageMembership(last, x);
      if x in Flatten(pages) {
        if x in Flatten(pages') {
          var p, r, i :| 0 <= p < |pages'| && 0 <= r < |pages'[p]| && 0 <= i < |pages'[p][r]| && pages'[p][r][i] == x;
          assert pages[p][r][i] == x;
        } else {
          var r, i :| 0 <= r < |last| && 0 <= i < |last[r]| && last[r][i] == x;
          assert pages[|pages| - 1][r][i] == x;
        }
      }
      if exists p, r, i :: 0 <= p < |pages| && 0 <= r < |pages[p]| && 0 <= i < |pages[p][r]| && pages[p][r][i] == x {
        var p, r, i :| 0 <= p < |pages| && 0 <= r < |pages[p]| && 0 <= i < |pages[p][r]| && pages[p][r][i] == x;
        if p < |pages| - 1 {
          assert pages'[p][r][i] == x;
        } else {
          assert last[r][i] == x;
        }
      }
    }
  }

  /** Every returned id belongs to a scheduled instance: the witness is
      returned. */
  lemma {:induction false} SelectSound(insts: seq<Instance>, id: string, key: string, value: string) returns (i: nat)
    requires id in Select(insts, key, value)
    ensures i < |insts| && insts[i].id == id && IsScheduled(insts[i], key, value)
    decreases |insts|
  {
    assert |insts| > 0;
    var n := |insts| - 1;
    var insts' := insts[..n];
    if id in Select(insts', key, value) {
      i := SelectSound(insts', id, key, value);
      assert insts[i] == insts'[i];
    } else {
      i := n;
    }
  }

  /** Every scheduled instance has its id returned. */
  lemma {:induction false} SelectComplete(insts: seq<Instance>, i: nat, key: string, value: string)
    requires i < |insts| && IsScheduled(insts[i], key, value)
    ensures insts[i].id in Select(insts, key, value)
    decreases |insts|
  {
    var n := |insts| - 1;
    if i < n {
      SelectComplete(insts[..n], i, key, value);
      assert insts[..n][i] == insts[i];
    }
  }

  lemma SelectMembership(insts: seq<Instance>, id: string, key: string, value: string)
    ensures id in Select(insts, key, value) <==>
            exists i :: 0 <= i < |insts| && insts[i].id == id && IsScheduled(insts[i], key, value)
  {
    if id in Select(insts, key, value) {
      var i := SelectSound(insts, id, key, value);
    }
    if exists i :: 0 <= i < |insts| && insts[i].id == id && IsScheduled(insts[i], key, value) {
      var i :| 0 <= i < |insts| && insts[i].id == id && IsScheduled(insts[i], key, value);
      SelectComplete(insts, i, key, value);
    }
  }

  /** Soundness and completeness: an id is returned exactly when some listed
      instance with that id carries the schedule tag. */
  lemma SelectedMembership(pages: seq<Page>, id: string, key: string, value: string)
    ensures id in SelectedIds(pages, key, value) <==>
            exists p, r, i :: 0 <= p < |pages| && 0 <= r < |pages[p]| && 0 <= i < |pages[p][r]| &&
                              pages[p][r][i].id == id && IsScheduled(pages[p][r][i], key, value)
  {
    SelectMembership(Flatten(pages), id, key, value);
    if id in SelectedIds(pages, key, value) {
      var k :| 0 <= k < |Flatten(pages)| && Flatten(pages)[k].id == id && IsScheduled(Flatten(pages)[k], key, value);
      FlattenMembership(pages, Flatten(pages)[k]);
    }
    if exists p, r, i :: 0 <= p < |pages| && 0 <= r < |pages[p]| && 0 <= i < |pages[p][r]| &&
                         pages[p][r][i].id == id && IsScheduled(pages[p][r][i], key, value) {
      var p, r, i :| 0 <= p < |pages| && 0 <= r < |pages[p]| && 0 <= i < |pages[p][r]| &&
                     pages[p][r][i].id == id && IsScheduled(pages[p][r][i], key, value);
      FlattenMembership(pages, pages[p][r][i]);
      var k :| 0 <= k < |Flatten(pages)| && Flatten(pages)[k] == pages[p][r][i];
    }
  }

  /** `idx` lists, for each id of `out`, the position in `insts` of the
      scheduled instance it comes from: positions strictly increase, and
      every scheduled instance's position is listed. */
  ghost predicate PicksScheduled(insts: seq<Instance>, out: seq<string>, idx: seq<nat>, key: string, value: string)
  {
    |idx| == |out| &&
    (forall j :: 0 <= j < |idx| ==> idx[j] < |insts| && insts[idx[j]].id == out[j] && IsScheduled(insts[idx[j]], key, value)) &&
    (forall j, k :: 0 <= j < k < |idx| ==> idx[j] < idx[k]) &&
    (forall i :: 0 <= i < |insts| && IsScheduled(insts[i], key, value) ==> i in idx)
  }

  lemma PicksExtend(insts: seq<Instance>, out: seq<string>, idx: seq<nat>, key: string, value: string, x: Instance)
    requires PicksScheduled(insts, out, idx, key, value)
    ensures IsScheduled(x, key, value) ==> PicksScheduled(insts + [x], out + [x.id], idx + [|insts|], key, value)
    ensures !IsScheduled(x, key, value) ==> PicksScheduled(insts + [x], out, idx, key, value)
  {
    var insts2 := insts + [x];
    forall i | 0 <= i < |insts| ensures insts2[i] == insts[i] { }
    if IsScheduled(x, key, value) {
      var out2, idx2 := out + [x.id], idx + [|insts|];
      forall j | 0 <= j < |idx2|
        ensures idx2[j] < |insts2| && insts2[idx2[j]].id == out2[j] && IsScheduled(insts2[idx2[j]], key, value)
      {
        if j < |idx| {
          assert idx2[j] == idx[j] && out2[j] == out[j];
        }
      }
      forall j, k | 0 <= j < k < |idx2| ensures idx2[j] < idx2[k] {
        assert idx2[j] == idx[j] < |insts|;
      }
      forall i | 0 <= i < |insts2| && IsScheduled(insts2[i], key, value) ensures i in idx2 {
        if i < |insts| {
          assert i in idx;
        } else {
          assert idx2[|idx|] == i;
        }
      }
    } else {
      forall i | 0 <= i < |insts2| && IsScheduled(insts2[i], key, value) ensures i in idx {
        assert i < |insts|;
      }
    }
  }

  /** Order and multiplicity: the result is the ids of exactly the scheduled
      instances, taken in listing order, one id per instance however many of
      its tags match. */
  lemma {:induction false} SelectOrder(insts: seq<Instance>, key: string, value: string) returns (idx: seq<nat>)
    ensures PicksScheduled(insts, Select(insts, key, value), idx, key, value)
    decreases |insts|
  {
    if |insts| == 0 {
      idx := [];
    } else {
      var n := |insts| - 1;
      var insts' := insts[..n];
      var out' := Select(insts', key, value);
      var idx' := SelectOrder(insts', key, value);
      PicksExtend(insts', out', idx', key, value, insts[n]);
      assert insts' + [insts[n]] == insts;
      if IsScheduled(insts[n], key, value) {
        assert Select(insts, key, value) == out' + [insts[n].id];
        idx := idx' + [n];
      } else {
        assert Select(insts, key, value) == out';
        idx := idx';
      }
    }
  }

  /** The selection in listing order, one id per scheduled instance. */
  lemma SelectionOrder(pages: seq<Page>, key: string, value: string) returns (idx: seq<nat>)
    ensures PicksScheduled(Flatten(pages), SelectedIds(pages, key, value), idx, key, value)
  {
    idx := SelectOrder(Flatten(pages), key, value);
  }

  lemma {:induction false} PageCountIsLength(page: Page)
    ensures |FlattenPage(page)| == PageCount(page)
    decreases |page|
  {
    if |page| > 0 {
      PageCountIsLength(page[..|page| - 1]);
      PageCountSplit(page[..|page| - 1], [page[|page| - 1]]);
      assert page[..|page| - 1] + [page[|page| - 1]] == page;
    }
  }

  lemma {:induction false} PageCountSplit(a: Page, b: Page)
    ensures PageCount(a + b) == PageCount(a) + PageCount(b)
    decreases |a|
  {
    if |a| > 0 {
      assert (a + b)[1..] == a[1..] + b;
      PageCountSplit(a[1..], b);
    } else {
      assert a + b == b;
    }
  }

  lemma {:induction false} InstanceCountSplit(a: seq<Page>, b: seq<Page>)
    ensures InstanceCount(a + b) == InstanceCount(a) + InstanceCount(b)
    decreases |a|
  {
    if |a| > 0 {
      assert (a + b)[1..] == a[1..] + b;
      InstanceCountSplit(a[1..], b);
    } else {
      assert a + b == b;
    }
  }

  lemma {:induction false} InstanceCountIsLength(pages: seq<Page>)
    ensures |Flatten(pages)| == InstanceCount(pages)
    decreases |pages|
  {
    if |pages| > 0 {
      var n := |pages| - 1;
      InstanceCountIsLength(pages[..n]);
      PageCountIsLength(pages[n]);
      InstanceCountSplit(pages[..n], [pages[n]]);
      assert pages[..n] + [pages[n]] == pages;
    }
  }

  lemma {:induction false} SelectLength(insts: seq<Instance>, key: string, value: string)
    ensures |Select(insts, key, value)| <= |insts|
    decreases |insts|
  {
    if |insts| > 0 {
      SelectLength(insts[..|insts| - 1], key, value);
    }
  }

  /** The selector never returns more ids than there are instances. */
  lemma SelectionBounded(pages: seq<Page>, key: string, value: string)
    ensures |SelectedIds(pages, key, value)| <= InstanceCount(pages)
  {
    SelectLength(Flatten(pages), key, value);
    InstanceCountIsLength(pages);
  }

  lemma {:induction false} FirstMatchCaseInsensitive(tags: seq<Tag>, key: string, v1: string, v2: string)
    requires Lower(v1) == Lower(v2)
    ensures FirstMatchingTag(tags, key, v1) == FirstMatchingTag(tags, key, v2)
  {
    if |tags| > 0 {
      FirstMatchCaseInsensitive(tags[1..], key, v1, v2);
    }
  }

  lemma {:induction false} SelectCaseInsensitive(insts: seq<Instance>, key: string, v1: string, v2: string)
    requires Lower(v1) == Lower(v2)
    ensures Select(insts, key, v1) == Select(insts, key, v2)
    decreases |insts|
  {
    if |insts| > 0 {
      SelectCaseInsensitive(insts[..|insts| - 1], key, v1, v2);
      FirstMatchCaseInsensitive(TagsOf(insts[|insts| - 1]), key, v1, v2);
    }
  }

  /** The configured schedule value is compared ignoring case: two values
      that lower-case alike select the same ids. */
  lemma SelectionValueCaseInsensitive(pages: seq<Page>, key: string, v1: string, v2: string)
    requires Lower(v1) == Lower(v2)
    ensures SelectedIds(pages, key, v1) == SelectedIds(pages, key, v2)
  {
    SelectCaseInsensitive(Flatten(pages), key, v1, v2);
  }

  // ---------------------------------------------------------------------
  // Pagination against the remote inventory

  /** The inventory calls for the first `count` pages. */
  function DescribeCalls(count: nat): (calls: seq<Call>)
    ensures |calls| == count
  {
    if count == 0 then [] else DescribeCalls(count - 1) + [DescribeInstancesPage(count - 1)]
  }

  /** The listing issues one page call per page, numbered in order. */
  lemma {:induction false} DescribeCallsInOrder(count: nat)
    ensures forall j :: 0 <= j < count ==> DescribeCalls(count)[j] == DescribeInstancesPage(j)
  {
    if count > 0 {
      DescribeCallsInOrder(count - 1);
      forall j | 0 <= j < count ensures DescribeCalls(count)[j] == DescribeInstancesPage(j) {
        if j < count - 1 {
          assert DescribeCalls(count)[j] == DescribeCalls(count - 1)[j];
        }
      }
    }
  }

  /** The number of calls, starting at log position `n`, that return before
      one raises (or `count` when none of them raises). */
  function FirstFault(faults: Faults, n: nat, count: nat): (k: nat)
    ensures k <= count
    ensures forall j :: n <= j < n + k ==> faults(j).None?
    ensures k < count ==> faults(n + k).Some?
  {
    if count == 0 then 0
    else
      var k := FirstFault(faults, n, count - 1);
      if k < count - 1 then k
      else if faults(n + count - 1).Some? then count - 1
      else count
  }

  /** The first raising call is the one after a quiet prefix. */
  lemma {:induction false} FirstFaultAt(faults: Faults, n: nat, count: nat, p: nat)
    requires p < count && NoFaultIn(faults, n, n + p) && faults(n + p).Some?
    ensures FirstFault(faults, n, count) == p
  {
    if p < count - 1 {
      FirstFaultAt(faults, n, count - 1, p);
    } else {
      var k := FirstFault(faults, n, count - 1);
      if k < count - 1 {
        assert false;
      }
    }
  }

  /** The selector run from log position `n`: one inventory call per page,
      in order; a raising page call ends the run with its exception, and no
      partial result is returned. */
  function SelectorRun(pages: seq<Page>, key: string, value: string, faults: Faults, n: nat): Run<seq<string>>
  {
    var k := FirstFault(faults, n, |pages|);
    if k < |pages| then Run(DescribeCalls(k + 1), Err(faults(n + k).value))
    else Run(DescribeCalls(|pages|), Ok(SelectedIds(pages, key, value)))
  }

  /** The selector fetches the pages in order and stops at the first page
      call that raises, raising its exception and returning no partial
      result; when none raises it returns the selection. */
  lemma SelectorOutcome(pages: seq<Page>, key: string, value: string, faults: Faults, n: nat)
    ensures var run := SelectorRun(pages, key, value, faults, n);
            Transparent(run, faults, n) &&
            run.calls == DescribeCalls(|run.calls|) && |run.calls| <= |pages| &&
            (run.result.Ok? <==> NoFaultIn(faults, n, n + |pages|)) &&
            (run.result.Ok? ==> run.result.value == SelectedIds(pages, key, value) && |run.calls| == |pages|)
  {
    var k := FirstFault(faults, n, |pages|);
    if k == |pages| {
      assert NoFaultIn(faults, n, n + |pages|);
    } else {
      assert !NoFaultIn(faults, n, n + k + 1);
      assert !NoFaultIn(faults, n, n + |pages|);
    }
  }

  /** The selector swallows nothing. */
  lemma SelectorTransparent(pages: seq<Page>, key: string, value: string, faults: Faults, n: nat)
    ensures Transparent(SelectorRun(pages, key, value, faults, n), faults, n)
  {
    SelectorOutcome(pages, key, value, faults, n);
  }

  /** When none of the page fetches raises, the selector fetches every page
      and returns the whole selection. */
  lemma SelectorQuiet(pages: seq<Page>, key: string, value: string, faults: Faults, n: nat)
    requires NoFaultIn(faults, n, n + |pages|)
    ensures var run := SelectorRun(pages, key, value, faults, n);
            run.calls == DescribeCalls(|pages|) && run.result.Ok? && run.result.value == SelectedIds(pages, key, value)
  {
    SelectorOutcome(pages, key, value, faults, n);
  }

  /** When the page fetch at position `p` is the first to raise, the
      selector stops there with its exception. */
  lemma SelectorStopsAt(pages: seq<Page>, key: string, value: string, faults: Faults, n: nat, p: nat)
    requires p < |pages| && NoFaultIn(faults, n, n + p) && faults(n + p).Some?
    ensures var run := SelectorRun(pages, key, value, faults, n);
            run.calls == DescribeCalls(p + 1) && run.result == Err(faults(n + p).value)
  {
    FirstFaultAt(faults, n, |pages|, p);
  }

  lemma SelectedIdsStep(pages: seq<Page>, p: nat, key: string, value: string)
    requires p < |pages|
    ensures SelectedIds(pages[..p + 1], key, value) == SelectedIds(pages[..p], key, value) + Select(FlattenPage(pages[p]), key, value)
  {
    assert pages[..p + 1][..p] == pages[..p];
    assert Flatten(pages[..p + 1]) == Flatten(pages[..p]) + FlattenPage(pages[p]);
    SelectAppend(Flatten(pages[..p]), FlattenPage(pages[p]), key, value);
  }

  /** The instance and tag loops over one reservation: the id of each
      scheduled instance is appended once, the tag loop breaking at the first
      match. */
  method CollectReservation(ids0: seq<string>, reservation: Reservation, key: string, value: string)
    returns (ids: seq<string>)
    ensures ids == ids0 + Select(reservation, key, value)
  {
    ids := ids0;
    var i := 0;
    while i < |reservation|
      invariant 0 <= i <= |reservation|
      invariant ids == ids0 + Select(reservation[..i], key, value)
    {
      var instance := reservation[i];
      var tags := TagsOf(instance);
      ghost var before := ids;
      var t := 0;
      while t < |tags|
        invariant 0 <= t <= |tags|
        invariant ids == before
        invariant forall j :: 0 <= j < t ==> !TagMatches(tags[j], key, value)
      {
        if TagMatches(tags[t], key, value) {
          ids := ids + [instance.id];
          break;
        }
        t := t + 1;
      }
      FirstMatchingTagMeaning(tags, key, value);
      assert ids == before + (if IsScheduled(instance, key, value) then [instance.id] else []);
      assert reservation[..i + 1][..i] == reservation[..i];
      AppendAssoc(ids0, Select(reservation[..i], key, value), if IsScheduled(instance, key, value) then [instance.id] else []);
      i := i + 1;
    }
    assert reservation[..i] == reservation;
  }

  /** Selecting over one more reservation of a page appends that
      reservation's selection. */
  lemma SelectPageStep(page: Page, r: nat, key: string, value: string)
    requires r < |page|
    ensures Select(FlattenPage(page[..r + 1]), key, value) == Select(FlattenPage(page[..r]), key, value) + Select(page[r], key, value)
  {
    assert page[..r + 1][..r] == page[..r];
    assert FlattenPage(page[..r + 1]) == FlattenPage(page[..r]) + page[r];
    SelectAppend(FlattenPage(page[..r]), page[r], key, value);
  }

  /** The reservation loop over one fetched page. */
  method CollectPage(ids0: seq<string>, page: Page, key: string, value: string) returns (ids: seq<string>)
    ensures ids == ids0 + Select(FlattenPage(page), key, value)
  {
    ids := ids0;
    var r := 0;
    while r < |page|
      invariant 0 <= r <= |page|
      invariant ids == ids0 + Select(FlattenPage(page[..r]), key, value)
    {
      ids := CollectReservation(ids, page[r], key, value);
      SelectPageStep(page, r, key, value);
      AppendAssoc(ids0, Select(FlattenPage(page[..r]), key, value), Select(page[r], key, value));
      r := r + 1;
    }
    assert page[..r] == page;
  }

  /** `get_ec2_instance_ids_by_schedule_tag`. */
  method GetInstanceIdsByScheduleTag(cloud: Cloud, pages: seq<Page>, key: string, value: string)
    returns (r: Result<seq<string>>)
    modifies cloud
    ensures var run := SelectorRun(pages, key, value, cloud.faults, |old(cloud.log)|);
            cloud.log == old(cloud.log) + run.calls && r == run.result
  {
    ghost var n := |cloud.log|;
    var ids: seq<string> := [];
    var p := 0;
    while p < |pages|
      invariant 0 <= p <= |pages|
      invariant cloud.log == old(cloud.log) + DescribeCalls(p)
      invariant NoFaultIn(cloud.faults, n, n + p)
      invariant ids == SelectedIds(pages[..p], key, value)
    {
      var fetched := cloud.Invoke(DescribeInstancesPage(p));
      AppendAssoc(old(cloud.log), DescribeCalls(p), [DescribeInstancesPage(p)]);
      if fetched.Err? {
        SelectorStopsAt(pages, key, value, cloud.faults, n, p);
        return Err(fetched.error);
      }
      NoFaultExtend(cloud.faults, n, n + p);
      ids := CollectPage(ids, pages[p], key, value);
      SelectedIdsStep(pages, p, key, value);
      p := p + 1;
    }
    assert pages[..p] == pages;
    SelectorQuiet(pages, key, value, cloud.faults, n);
    return Ok(ids);
  }
}

/**
 * The accounting for the `signer_seq` values missing from a sealed ledger: the run-compressed procedure the
 * verifier performs, the set procedure it stands for, and how good the greedy matching in it is.
 */
module Accounting {
  import opened Records
  import opened Ordering

  /** A maximal run of values, both ends included. */
  datatype Run = Run(first: nat, last: nat)

  ghost predicate Covers(runs: seq<Run>, v: nat) {
    exists i :: 0 <= i < |runs| && runs[i].first <= v <= runs[i].last
  }

  /** Ascending, disjoint, and maximal: no two runs touch. */
  ghost predicate Canonical(runs: seq<Run>) {
    && (forall i :: 0 <= i < |runs| ==> runs[i].first <= runs[i].last)
    && (forall i, j :: 0 <= i < j < |runs| ==> runs[i].last + 1 < runs[j].first)
  }

  ghost predicate RunsOf(runs: seq<Run>, values: set<nat>) {
    && Canonical(runs)
    && (forall v: nat :: Covers(runs, v) <==> v in values)
  }

  /** A set has only one list of maximal runs, so stating the runs of a set states the list. */
  lemma {:induction false} RunsAreUnique(a: seq<Run>, b: seq<Run>, values: set<nat>)
    requires RunsOf(a, values) && RunsOf(b, values)
    ensures a == b
    decreases |a|
  {
    LeastIsFirst(a, values);
    LeastIsFirst(b, values);
    if a != [] {
      FirstRunNotLonger(a, b, values);
      FirstRunNotLonger(b, a, values);
      var rest := set v | v in values && v > a[0].last;
      DropFirstRun(a, values);
      DropFirstRun(b, values);
      RunsAreUnique(a[1..], b[1..], rest);
      assert a == [a[0]] + a[1..] && b == [b[0]] + b[1..];
    }
  }

  /** Runs start at the least value, so a list is empty exactly when the set is. */
  lemma LeastIsFirst(runs: seq<Run>, values: set<nat>)
    requires RunsOf(runs, values)
    ensures runs == [] <==> values == {}
    ensures runs != [] ==> Least(values) == runs[0].first
  {
    if runs != [] {
      assert Covers(runs, runs[0].first);
    }
    if values != {} {
      var least := Least(values);
      assert Covers(runs, least);
      var i :| 0 <= i < |runs| && runs[i].first <= least <= runs[i].last;
      assert runs[0].first <= least;
    }
  }

  lemma FirstRunNotLonger(a: seq<Run>, b: seq<Run>, values: set<nat>)
    requires RunsOf(a, values) && RunsOf(b, values) && a != [] && b != [] && a[0].first == b[0].first
    ensures a[0].last <= b[0].last
  {
    var past := b[0].last + 1;
    NotPastFirst(b);
    assert !Covers(a, past);
    assert !(a[0].first <= past <= a[0].last);
  }

  lemma NotPastFirst(runs: seq<Run>)
    requires Canonical(runs) && runs != []
    ensures !Covers(runs, runs[0].last + 1)
  {
  }

  lemma DropFirstRun(runs: seq<Run>, values: set<nat>)
    requires RunsOf(runs, values) && runs != []
    ensures RunsOf(runs[1..], set v | v in values && v > runs[0].last)
  {
  }

  /** The list of a set's maximal runs. */
  ghost function MaximalRuns(values: set<nat>): (runs: seq<Run>)
    ensures RunsOf(runs, values)
  {
    if values == {} then [] else
      var top := Greatest(values);
      var below := MaximalRuns(values - {top});
      AddTop(below, values);
      if below != [] && below[|below| - 1].last + 1 == top
      then below[..|below| - 1] + [Run(below[|below| - 1].first, top)]
      else below + [Run(top, top)]
  }

  lemma AddTop(below: seq<Run>, values: set<nat>)
    requires values != {} && RunsOf(below, values - {Greatest(values)})
    ensures var top := Greatest(values);
            RunsOf(if below != [] && below[|below| - 1].last + 1 == top
                   then below[..|below| - 1] + [Run(below[|below| - 1].first, top)]
                   else below + [Run(top, top)], values)
  {
    var top := Greatest(values);
    forall i | 0 <= i < |below|
      ensures below[i].last < top
    {
      assert Covers(below, below[i].last);
    }
    if below != [] && below[|below| - 1].last + 1 == top {
      var front, last := below[..|below| - 1], below[|below| - 1];
      JoinTop(front, last, top);
      assert front + [last] == below;
      assert forall v: nat :: Covers(front + [Run(last.first, top)], v) <==> v in values;
    } else {
      CoversAppend(below, Run(top, top));
    }
  }

  lemma JoinTop(front: seq<Run>, last: Run, top: nat)
    requires last.last + 1 == top && last.first <= last.last
    ensures forall v: nat :: Covers(front + [Run(last.first, top)], v) <==> Covers(front + [last], v) || v == top
  {
    CoversAppend(front, last);
    CoversAppend(front, Run(last.first, top));
  }

  /** Step 1: the values from 0 to the largest sealed one that are not sealed. */
  ghost function Missing(sealed: set<nat>): set<nat> {
    if sealed == {} then {} else set v | 0 <= v < Greatest(sealed) && v !in sealed
  }

  /** Step 3, for one refusal: it accounts for the smallest missing value below its own. */
  ghost function AccountOne(missing: set<nat>, refusal: nat): set<nat> {
    if missing == {} || Least(missing) >= refusal then missing else missing - {Least(missing)}
  }

  /** Step 3: the refusals, in order. What is left is unaccounted (step 4). */
  ghost function Account(missing: set<nat>, refusals: seq<nat>): set<nat> {
    if refusals == [] then missing else Account(AccountOne(missing, refusals[0]), refusals[1..])
  }

  /** `AccountOne` is step 3's wording: the smallest of the missing values that lie below the refusal. */
  lemma AccountsForSmallestBelow(missing: set<nat>, refusal: nat)
    ensures var below := set m | m in missing && m < refusal;
            AccountOne(missing, refusal) == if below == {} then missing else missing - {Least(below)}
  {
    var below := set m | m in missing && m < refusal;
    if missing != {} && Least(missing) < refusal {
      assert Least(missing) in below;
      assert Least(below) in missing;
    } else {
      assert forall m :: m in missing ==> m !in below;
    }
  }

  /** The values from 0 to the largest in `present` that are not in it, as runs. */
  method MissingRuns(present: set<nat>) returns (runs: seq<Run>)
    ensures RunsOf(runs, Missing(present))
  {
    runs := [];
    var next := 0;
    var values := Listed(present);
    var i := 0;
    while i < |values|
      invariant 0 <= i <= |values|
      invariant next == NextAfter(values, i)
      invariant Canonical(runs)
      invariant forall k :: 0 <= k < |runs| ==> runs[k].last + 1 < next
      invariant forall v: nat :: Covers(runs, v) <==> v < next && v !in present
    {
      var value := values[i];
      GapBelow(values, present, i);
      AddGap(runs, present, next, value);
      if value > next {
        runs := runs + [Run(next, value - 1)];
      }
      next := value + 1;
      i := i + 1;
    }
    if present != {} {
      LastIsGreatest(values, present);
    }
  }

  lemma AddGap(runs: seq<Run>, present: set<nat>, next: nat, value: nat)
    requires Canonical(runs) && (forall k :: 0 <= k < |runs| ==> runs[k].last + 1 < next)
    requires forall v: nat :: Covers(runs, v) <==> v < next && v !in present
    requires value in present && next <= value && (forall v: nat | next <= v < value :: v !in present)
    ensures var longer := if value > next then runs + [Run(next, value - 1)] else runs;
            && Canonical(longer)
            && (forall k :: 0 <= k < |longer| ==> longer[k].last + 1 < value + 1)
            && (forall v: nat :: Covers(longer, v) <==> v < value + 1 && v !in present)
  {
    if value > next {
      CoversAppend(runs, Run(next, value - 1));
    }
  }

  /** One past the value before place `i`, or 0. */
  ghost function NextAfter(values: seq<nat>, i: nat): nat
    requires i <= |values|
  {
    if i == 0 then 0 else values[i - 1] + 1
  }

  lemma LastIsGreatest(values: seq<nat>, present: set<nat>)
    requires StrictlyAscends(values) && (forall x :: x in values <==> x in present) && present != {}
    ensures values != [] && values[|values| - 1] == Greatest(present)
  {
    assert Greatest(present) in values;
    assert values[|values| - 1] in values;
  }

  lemma GapBelow(values: seq<nat>, present: set<nat>, i: nat)
    requires StrictlyAscends(values) && (forall x :: x in values <==> x in present) && i < |values|
    ensures values[i] in present && NextAfter(values, i) <= values[i]
    ensures forall v: nat | NextAfter(values, i) <= v < values[i] :: v !in present
  {
  }

  lemma CoversAppend(runs: seq<Run>, run: Run)
    ensures forall v: nat :: Covers(runs + [run], v) <==> Covers(runs, v) || run.first <= v <= run.last
  {
    var all := runs + [run];
    forall v: nat
      ensures Covers(all, v) <==> Covers(runs, v) || run.first <= v <= run.last
    {
      if Covers(runs, v) {
        var i :| 0 <= i < |runs| && runs[i].first <= v <= runs[i].last;
        assert all[i] == runs[i];
      }
      if run.first <= v <= run.last {
        assert all[|runs|] == run;
      }
    }
  }

  /** Steps 1 to 4 for one key and session, on run bounds edited in place. */
  method UnaccountedRuns(sealed: set<nat>, refusals: seq<nat>) returns (missing: seq<Run>)
    ensures RunsOf(missing, Account(Missing(sealed), Sorted(refusals)))
  {
    missing := MissingRuns(sealed);
    var ascending := Sorted(refusals);
    ghost var left := Missing(sealed);
    var i := 0;
    while i < |ascending|
      invariant 0 <= i <= |ascending|
      invariant RunsOf(missing, left)
      invariant Account(left, ascending[i..]) == Account(Missing(sealed), ascending)
    {
      var refusal := ascending[i];
      LeastIsFirst(missing, left);
      assert ascending[i..][1..] == ascending[i + 1..];
      if missing != [] && missing[0].first < refusal {
        TakeFirst(missing, left);
        missing := missing[0 := Run(missing[0].first + 1, missing[0].last)];
        if missing[0].first > missing[0].last {
          missing := missing[1..];
        }
      }
      left := AccountOne(left, refusal);
      i := i + 1;
    }
    assert ascending[i..] == [];
  }

  /** What shifting the first bound, and dropping an emptied run, does to the values covered. */
  lemma TakeFirst(runs: seq<Run>, values: set<nat>)
    requires RunsOf(runs, values) && runs != []
    ensures var shifted := runs[0 := Run(runs[0].first + 1, runs[0].last)];
            RunsOf(if shifted[0].first > shifted[0].last then shifted[1..] else shifted, values - {runs[0].first})
  {
  }

  // ---------------------------------------------------------------------------------------------------
  // How good the greedy matching is.

  /** An assignment of distinct missing values to refusals, by the refusals' places, each below its refusal. */
  ghost predicate Assignment(a: map<nat, nat>, missing: set<nat>, refusals: seq<nat>, from: nat) {
    Lower(a, missing, refusals, from) && Injective(a)
  }

  ghost predicate Lower(a: map<nat, nat>, missing: set<nat>, refusals: seq<nat>, from: nat) {
    forall i :: i in a ==> from <= i < |refusals| && a[i] in missing && a[i] < refusals[i]
  }

  ghost predicate Injective(a: map<nat, nat>) {
    forall i, j :: i in a && j in a && i != j ==> a[i] != a[j]
  }

  /**
   * The greedy procedure is optimal: no assignment of distinct refusals to smaller missing values accounts
   * for more values than it does.
   */
  lemma GreedyIsOptimal(a: map<nat, nat>, missing: set<nat>, refusals: seq<nat>)
    requires Ascends(refusals) && Assignment(a, missing, refusals, 0)
    ensures Account(missing, refusals) <= missing
    ensures |a| <= |missing| - |Account(missing, refusals)|
  {
    assert refusals[0..] == refusals;
    GreedyIsOptimalFrom(a, missing, refusals, 0);
  }

  /** And what it accounts for is itself such an assignment, so the bound is met. */
  lemma {:induction false} GreedyIsAssignment(missing: set<nat>, refusals: seq<nat>, from: nat) returns (a: map<nat, nat>)
    requires from <= |refusals|
    ensures Assignment(a, missing, refusals, from)
    ensures a.Values == missing - Account(missing, refusals[from..])
    ensures Account(missing, refusals[from..]) <= missing
    decreases |refusals| - from
  {
    if from == |refusals| {
      a := map[];
    } else {
      assert refusals[from..][0] == refusals[from] && refusals[from..][1..] == refusals[from + 1..];
      var left := AccountOne(missing, refusals[from]);
      a := GreedyIsAssignment(left, refusals, from + 1);
      if left != missing {
        var rest := a;
        a := rest[from := Least(missing)];
        assert forall i :: i in rest ==> rest[i] in left;
        ValuesWith(rest, from, Least(missing));
      }
    }
  }

  lemma ValuesWith(a: map<nat, nat>, i: nat, v: nat)
    requires i !in a
    ensures a[i := v].Values == a.Values + {v}
  {
    var b := a[i := v];
    assert b[i] == v;
    forall w | w in a.Values
      ensures w in b.Values
    {
      var j :| j in a && a[j] == w;
      assert b[j] == w;
    }
  }

  /** Nothing is left exactly when some assignment covers every missing value. */
  lemma NothingLeftWhenCovered(missing: set<nat>, refusals: seq<nat>)
    requires Ascends(refusals)
    ensures Account(missing, refusals) == {} <==>
              exists a: map<nat, nat> :: Assignment(a, missing, refusals, 0) && a.Values == missing
  {
    if a: map<nat, nat> :| Assignment(a, missing, refusals, 0) && a.Values == missing {
      GreedyIsOptimal(a, missing, refusals);
      InjectiveSize(a);
    }
    if Account(missing, refusals) == {} {
      assert refusals[0..] == refusals;
      var a := GreedyIsAssignment(missing, refusals, 0);
      assert Assignment(a, missing, refusals, 0) && a.Values == missing;
    }
  }

  lemma {:induction false} GreedyIsOptimalFrom(a: map<nat, nat>, missing: set<nat>, refusals: seq<nat>, from: nat)
    requires Ascends(refusals) && from <= |refusals| && Assignment(a, missing, refusals, from)
    ensures Account(missing, refusals[from..]) <= missing
    ensures |a| <= |missing| - |Account(missing, refusals[from..])|
    decreases |refusals| - from
  {
    if from == |refusals| {
      assert a.Keys == {};
      assert |a| == |a.Keys| == 0;
    } else {
      var refusal := refusals[from];
      assert refusals[from..][0] == refusal && refusals[from..][1..] == refusals[from + 1..];
      var left := AccountOne(missing, refusal);
      if left == missing {
        forall i | i in a
          ensures i != from
        {
          assert a[i] >= Least(missing);
        }
        GreedyIsOptimalFrom(a, missing, refusals, from + 1);
      } else {
        var b := Exchange(a, missing, refusals, from);
        GreedyIsOptimalFrom(b, left, refusals, from + 1);
        assert |missing| == |left| + 1;
      }
    }
  }

  /**
   * The exchange: giving the first refusal the smallest value costs an assignment at most one of its pairs,
   * since whoever held that value can take over what the first refusal held.
   */
  lemma Exchange(a: map<nat, nat>, missing: set<nat>, refusals: seq<nat>, from: nat) returns (b: map<nat, nat>)
    requires Ascends(refusals) && from < |refusals| && Assignment(a, missing, refusals, from)
    requires missing != {} && Least(missing) < refusals[from]
    ensures Assignment(b, missing - {Least(missing)}, refusals, from + 1)
    ensures |b| >= |a| - 1
  {
    var least := Least(missing);
    if i :| i in a && a[i] == least && i != from {
      if from in a {
        b := Move(a, missing, refusals, from, i);
      } else {
        b := Drop(a, i);
        LowerPast(a, b, missing, refusals, from);
      }
    } else {
      b := Drop(a, from);
      LowerPast(a, b, missing, refusals, from);
    }
  }

  lemma LowerPast(a: map<nat, nat>, b: map<nat, nat>, missing: set<nat>, refusals: seq<nat>, from: nat)
    requires Lower(a, missing, refusals, from) && missing != {}
    requires forall j :: j in b ==> j in a && j != from && b[j] == a[j] && b[j] != Least(missing)
    ensures Lower(b, missing - {Least(missing)}, refusals, from + 1)
  {
  }

  lemma Move(a: map<nat, nat>, missing: set<nat>, refusals: seq<nat>, from: nat, i: nat) returns (b: map<nat, nat>)
    requires Ascends(refusals) && from < |refusals| && Assignment(a, missing, refusals, from)
    requires missing != {} && from in a && i in a && i != from && a[i] == Least(missing)
    ensures Assignment(b, missing - {Least(missing)}, refusals, from + 1)
    ensures |b| >= |a| - 1
  {
    var c := Drop(a, from);
    b := Put(c, i, a[from]);
    forall j | j in b
      ensures from + 1 <= j < |refusals| && b[j] in missing - {a[i]} && b[j] < refusals[j]
    {
      assert j in a && a[j] < refusals[j];
      if j == i {
        assert a[from] != a[i];
        assert refusals[from] <= refusals[i];
      } else {
        assert a[j] != a[i];
      }
    }
  }

  /** The assignment without the pair of `i`. */
  lemma Drop(a: map<nat, nat>, i: nat) returns (b: map<nat, nat>)
    requires Injective(a)
    ensures b.Keys == a.Keys - {i} && (forall j :: j in b ==> b[j] == a[j])
    ensures Injective(b) && |b| >= |a| - 1
    ensures i in a ==> forall j :: j in b ==> b[j] != a[i]
  {
    b := a - {i};
    assert |b| == |b.Keys| && |a| == |a.Keys|;
    assert |a.Keys - {i}| >= |a.Keys| - 1 by {
      if i !in a {
        assert a.Keys - {i} == a.Keys;
      }
    }
  }

  /** The assignment with `i` moved to a value nobody holds. */
  lemma Put(a: map<nat, nat>, i: nat, v: nat) returns (b: map<nat, nat>)
    requires Injective(a) && i in a && (forall j :: j in a ==> a[j] != v)
    ensures b.Keys == a.Keys && b[i] == v && (forall j :: j in b && j != i ==> b[j] == a[j])
    ensures Injective(b) && |b| == |a|
  {
    b := a[i := v];
    assert b.Keys == a.Keys;
    assert |b| == |b.Keys| && |a| == |a.Keys|;
  }

  lemma {:induction false} InjectiveSize(a: map<nat, nat>)
    requires Injective(a)
    ensures |a.Values| == |a|
    decreases |a|
  {
    if a.Keys == {} {
      assert a == map[];
    } else {
      var k :| k in a;
      var rest := a - {k};
      assert rest.Keys == a.Keys - {k};
      assert |rest| == |rest.Keys| && |a| == |a.Keys|;
      InjectiveSize(rest);
      forall v
        ensures v in rest.Values <==> v in a.Values && v != a[k]
      {
        if v in a.Values && v != a[k] {
          var i :| i in a && a[i] == v;
          assert i in rest;
        }
      }
      assert a.Values == rest.Values + {a[k]};
    }
  }

  // ---------------------------------------------------------------------------------------------------
  // The whole ledger.

  datatype Group = Group(key: KeyId, session: SessionId)

  datatype Unaccounted = Unaccounted(key: KeyId, session: SessionId, first: nat, last: nat)

  /** An event that takes a place in some key's sequence. */
  predicate Numbered(e: Event) {
    e.signer.Some? && 0 <= e.signer.value.number <= MAX_SAFE_INTEGER
  }

  function GroupOf(e: Event): Group
    requires e.signer.Some?
  {
    Group(e.signer.value.key, e.session)
  }

  predicate RefusalReason(reason: Option<AbortReason>) {
    reason == Some(HostRejected) || reason == Some(HostUnavailable)
  }

  /** Step 2: a sealed refusal to which no attempt sealed before it correlates. */
  ghost predicate IsRefusal(events: seq<Event>, i: nat)
    requires i < |events|
  {
    && events[i].outcome.Aborted?
    && RefusalReason(events[i].reason)
    && !exists j :: 0 <= j < i && events[j].outcome.Attempted? && SameOperation(events[j], events[i])
  }

  ghost predicate InGroup(e: Event, g: Group) {
    Numbered(e) && GroupOf(e) == g
  }

  ghost function Sealed(events: seq<Event>, g: Group): set<nat> {
    set i | 0 <= i < |events| && InGroup(events[i], g) :: events[i].signer.value.number
  }

  ghost function Refusals(events: seq<Event>, g: Group): seq<nat> {
    if events == [] then [] else
      var last := |events| - 1;
      Refusals(events[..last], g) +
      if InGroup(events[last], g) && IsRefusal(events, last) then [events[last].signer.value.number] else []
  }

  /** What section 11.4 leaves unaccounted for one key and session. */
  ghost function Left(events: seq<Event>, g: Group): set<nat> {
    Account(Missing(Sealed(events, g)), Sorted(Refusals(events, g)))
  }

  /** The keys and sessions of a ledger in order of first appearance. */
  ghost function Groups(events: seq<Event>): seq<Group> {
    if events == [] then [] else
      var last := |events| - 1;
      var before := Groups(events[..last]);
      if Numbered(events[last]) && GroupOf(events[last]) !in before then before + [GroupOf(events[last])] else before
  }

  lemma GroupsAreDistinct(events: seq<Event>)
    ensures forall i, j :: 0 <= i < j < |Groups(events)| ==> Groups(events)[i] != Groups(events)[j]
  {
  }

  lemma {:induction false} GroupsAreAll(events: seq<Event>, g: Group)
    ensures g in Groups(events) <==> exists i :: 0 <= i < |events| && InGroup(events[i], g)
  {
    if events != [] {
      var last := |events| - 1;
      GroupsAreAll(events[..last], g);
      assert forall i :: 0 <= i < last ==> events[..last][i] == events[i];
    }
  }

  /** One group's runs as they are reported. */
  function Entries(g: Group, runs: seq<Run>): (entries: seq<Unaccounted>)
    ensures |entries| == |runs|
  {
    seq(|runs|, i requires 0 <= i < |runs| => Unaccounted(g.key, g.session, runs[i].first, runs[i].last))
  }

  /** The report: group by group, the maximal runs of what the procedure leaves. */
  ghost function Report(events: seq<Event>, groups: seq<Group>): seq<Unaccounted> {
    if groups == [] then [] else
      var last := |groups| - 1;
      Report(events, groups[..last]) + Entries(groups[last], MaximalRuns(Left(events, groups[last])))
  }

  /** Nothing is reported exactly when every key and session is accounted for. */
  lemma {:induction false} EmptyReport(events: seq<Event>, groups: seq<Group>)
    ensures Report(events, groups) == [] <==> forall g :: g in groups ==> Left(events, g) == {}
    decreases |groups|
  {
    if groups != [] {
      var last := |groups| - 1;
      var front, g := groups[..last], groups[last];
      EmptyReport(events, front);
      LeastIsFirst(MaximalRuns(Left(events, g)), Left(events, g));
      InFront(groups);
      assert Report(events, groups) == Report(events, front) + Entries(g, MaximalRuns(Left(events, g)));
    }
  }

  lemma InFront(groups: seq<Group>)
    requires groups != []
    ensures forall g :: g in groups <==> g in groups[..|groups| - 1] || g == groups[|groups| - 1]
  {
  }

  datatype Tally = Tally(sealed: set<nat>, refusals: seq<nat>)

  /** The accounting over the sealed events of one partition, in chain order. */
  method UnaccountedSignerSeq(events: seq<Event>) returns (report: seq<Unaccounted>)
    ensures report == Report(events, Groups(events))
  {
    var order, tallies := TallyGroups(events);
    report := [];
    var i := 0;
    while i < |order|
      invariant 0 <= i <= |order|
      invariant report == Report(events, order[..i])
    {
      var g := order[i];
      var runs := UnaccountedRuns(tallies[g].sealed, tallies[g].refusals);
      ReportNext(events, order, i, runs);
      report := report + Entries(g, runs);
      i := i + 1;
    }
    assert order[..i] == order;
  }

  lemma ReportNext(events: seq<Event>, groups: seq<Group>, i: nat, runs: seq<Run>)
    requires i < |groups| && RunsOf(runs, Left(events, groups[i]))
    ensures Report(events, groups[..i + 1]) == Report(events, groups[..i]) + Entries(groups[i], runs)
  {
    RunsAreUnique(runs, MaximalRuns(Left(events, groups[i])), Left(events, groups[i]));
    assert groups[..i + 1][..i] == groups[..i] && groups[..i + 1][i] == groups[i];
  }

  /** `order` and `tallies` are the groups of `events` and what each has sealed and refused. */
  ghost predicate TallyOf(events: seq<Event>, order: seq<Group>, tallies: map<Group, Tally>) {
    && order == Groups(events)
    && (forall g :: g in order <==> g in tallies)
    && (forall g :: g in tallies ==> tallies[g] == Tally(Sealed(events, g), Refusals(events, g)))
  }

  method TallyGroups(events: seq<Event>) returns (order: seq<Group>, tallies: map<Group, Tally>)
    ensures TallyOf(events, order, tallies)
  {
    var attempts: set<(SessionId, Id)> := {};
    order, tallies := [], map[];
    var i := 0;
    while i < |events|
      invariant 0 <= i <= |events|
      invariant forall s, id :: (s, id) in attempts <==>
        exists j :: 0 <= j < i && events[j].outcome.Attempted? && events[j].session == s && events[j].id == id
      invariant TallyOf(events[..i], order, tallies)
    {
      var e := events[i];
      var refusal := e.outcome.Aborted? && RefusalReason(e.reason) && (e.session, e.id) !in attempts;
      if Numbered(e) {
        TallyNext(events, i, order, tallies);
        var g := GroupOf(e);
        var tally := if g in tallies then tallies[g] else Tally({}, []);
        if g !in tallies {
          order := order + [g];
        }
        tallies := tallies[g := Counted(tally, e, refusal)];
      } else {
        TallySkip(events, i, order, tallies);
      }
      if e.outcome.Attempted? {
        attempts := attempts + {(e.session, e.id)};
      }
      i := i + 1;
    }
    assert events[..i] == events;
  }

  function Counted(tally: Tally, e: Event, refusal: bool): Tally
    requires Numbered(e)
  {
    Tally(tally.sealed + {e.signer.value.number},
          if refusal then tally.refusals + [e.signer.value.number] else tally.refusals)
  }

  lemma TallyNext(events: seq<Event>, i: nat, order: seq<Group>, tallies: map<Group, Tally>)
    requires i < |events| && Numbered(events[i]) && TallyOf(events[..i], order, tallies)
    ensures var g := GroupOf(events[i]);
            TallyOf(events[..i + 1],
                    if g in tallies then order else order + [g],
                    tallies[g := Counted(if g in tallies then tallies[g] else Tally({}, []), events[i], IsRefusal(events, i))])
  {
    var g := GroupOf(events[i]);
    var longer := events[..i + 1];
    StepTally(events, i);
    FirstInGroup(events[..i], g);
    assert longer[i] == events[i];
    var order' := if g in tallies then order else order + [g];
    var tallies' := tallies[g := Counted(if g in tallies then tallies[g] else Tally({}, []), events[i], IsRefusal(events, i))];
    assert order' == Groups(longer);
    forall h | h in tallies'
      ensures tallies'[h] == Tally(Sealed(longer, h), Refusals(longer, h))
    {
      assert h != g ==> !InGroup(events[i], h);
    }
  }

  lemma TallySkip(events: seq<Event>, i: nat, order: seq<Group>, tallies: map<Group, Tally>)
    requires i < |events| && !Numbered(events[i]) && TallyOf(events[..i], order, tallies)
    ensures TallyOf(events[..i + 1], order, tallies)
  {
    StepTally(events, i);
  }

  lemma StepTally(events: seq<Event>, i: nat)
    requires i < |events|
    ensures events[..i + 1][..i] == events[..i]
    ensures IsRefusal(events[..i + 1], i) == IsRefusal(events, i)
    ensures forall g :: Sealed(events[..i + 1], g) ==
                        Sealed(events[..i], g) + if InGroup(events[i], g) then {events[i].signer.value.number} else {}
    ensures forall g :: Refusals(events[..i + 1], g) ==
                        Refusals(events[..i], g) +
                        if InGroup(events[i], g) && IsRefusal(events, i) then [events[i].signer.value.number] else []
  {
  }

  lemma SealedNext(events: seq<Event>, e: Event, g: Group)
    ensures Sealed(events + [e], g) == Sealed(events, g) + if InGroup(e, g) then {e.signer.value.number} else {}
  {
    var all := events + [e];
    assert forall k :: 0 <= k < |events| ==> all[k] == events[k];
    forall v | v in Sealed(events, g)
      ensures v in Sealed(all, g)
    {
      var k :| 0 <= k < |events| && InGroup(events[k], g) && events[k].signer.value.number == v;
      assert InGroup(all[k], g);
    }
    if InGroup(e, g) {
      assert InGroup(all[|events|], g);
    }
  }

  lemma FirstInGroup(events: seq<Event>, g: Group)
    ensures g !in Groups(events) ==> Sealed(events, g) == {} && Refusals(events, g) == []
  {
    GroupsAreAll(events, g);
    if g !in Groups(events) {
      NoRefusals(events, g);
    }
  }

  lemma {:induction false} NoRefusals(events: seq<Event>, g: Group)
    requires forall i :: 0 <= i < |events| ==> !InGroup(events[i], g)
    ensures Refusals(events, g) == []
  {
    if events != [] {
      NoRefusals(events[..|events| - 1], g);
    }
  }
}

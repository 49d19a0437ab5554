/** The merge of nested tool events into a response's own ones (internal/assistant/runtime_persist.go). */
module ToolEvents {

  datatype ToolEvent = ToolEvent(callId: string, parentCallId: string, sequence: int, name: string, result: string)

  /** One event of the input, by its place there: equal events at different places are different. */
  datatype Ref = OuterRef(index: nat) | NestedRef(index: nat)

  // ----- siblings -----

  /** Events without a sequence number sort last. */
  function CompareSequence(left: ToolEvent, right: ToolEvent): int {
    if left.sequence <= 0 && right.sequence <= 0 then 0
    else if left.sequence <= 0 then 1
    else if right.sequence <= 0 then -1
    else if left.sequence < right.sequence then -1
    else if left.sequence > right.sequence then 1
    else 0
  }

  /** Stable order of two nested events: by sequence number, and by place among equal ones. */
  predicate Sooner(nested: seq<ToolEvent>, c: nat, d: nat)
    requires c < |nested| && d < |nested|
  {
    var order := CompareSequence(nested[c], nested[d]);
    order < 0 || (order == 0 && c < d)
  }

  predicate IndexesOf(nested: seq<ToolEvent>, list: seq<nat>) {
    forall i | 0 <= i < |list| :: list[i] < |nested|
  }

  /** The nested events that name this parent, in input order. */
  function Children(nested: seq<ToolEvent>, parent: string, n: nat): (r: seq<nat>)
    requires n <= |nested|
    ensures IndexesOf(nested, r)
  {
    if n == 0 || parent == "" then []
    else Children(nested, parent, n - 1) + (if nested[n - 1].parentCallId == parent then [n - 1] else [])
  }

  /** Insertion behind everything that does not sort later: the step of a stable sort. */
  function Insert(nested: seq<ToolEvent>, sorted: seq<nat>, x: nat): (r: seq<nat>)
    requires IndexesOf(nested, sorted) && x < |nested|
    ensures IndexesOf(nested, r)
  {
    if sorted == [] then [x]
    else
      var n := |sorted| - 1;
      if CompareSequence(nested[sorted[n]], nested[x]) <= 0 then sorted + [x]
      else Insert(nested, sorted[..n], x) + [sorted[n]]
  }

  function StableSort(nested: seq<ToolEvent>, list: seq<nat>): (r: seq<nat>)
    requires IndexesOf(nested, list)
    ensures IndexesOf(nested, r)
  {
    if list == [] then [] else Insert(nested, StableSort(nested, list[..|list| - 1]), list[|list| - 1])
  }

  /** The children of a parent in the order in which they are merged. */
  function Siblings(nested: seq<ToolEvent>, parent: string): (r: seq<nat>)
    ensures IndexesOf(nested, r)
  {
    StableSort(nested, Children(nested, parent, |nested|))
  }

  predicate IsChild(nested: seq<ToolEvent>, c: nat, parent: string) {
    parent != "" && c < |nested| && nested[c].parentCallId == parent
  }

  predicate Ascends(list: seq<nat>) {
    forall i, j | 0 <= i < j < |list| :: list[i] < list[j]
  }

  ghost predicate IsSorted(nested: seq<ToolEvent>, list: seq<nat>)
    requires IndexesOf(nested, list)
  {
    forall i, j | 0 <= i < j < |list| :: Sooner(nested, list[i], list[j])
  }

  lemma {:induction false} ChildrenAscend(nested: seq<ToolEvent>, parent: string, n: nat)
    requires n <= |nested|
    ensures var r := Children(nested, parent, n);
      && (forall i | 0 <= i < |r| :: r[i] < n)
      && Ascends(r)
      && (forall c: nat :: c in r <==> c < n && IsChild(nested, c, parent))
  {
    if n > 0 && parent != "" {
      ChildrenAscend(nested, parent, n - 1);
    }
  }

  lemma {:induction false} InsertMembers(nested: seq<ToolEvent>, sorted: seq<nat>, x: nat)
    requires IndexesOf(nested, sorted) && x < |nested|
    ensures forall c: nat :: c in Insert(nested, sorted, x) <==> c in sorted || c == x
  {
    if sorted != [] {
      var n := |sorted| - 1;
      InsertMembers(nested, sorted[..n], x);
      assert sorted == sorted[..n] + [sorted[n]];
    }
  }

  lemma SortedAppend(nested: seq<ToolEvent>, list: seq<nat>, x: nat)
    requires IndexesOf(nested, list) && x < |nested| && IsSorted(nested, list)
    requires forall c: nat | c in list :: c < |nested| && Sooner(nested, c, x)
    ensures IsSorted(nested, list + [x])
  {
    hide Sooner;
  }

  lemma {:induction false} InsertSorts(nested: seq<ToolEvent>, sorted: seq<nat>, x: nat)
    requires IndexesOf(nested, sorted) && x < |nested| && IsSorted(nested, sorted)
    requires forall i | 0 <= i < |sorted| :: sorted[i] < x
    ensures IsSorted(nested, Insert(nested, sorted, x))
  {
    if sorted != [] {
      var n := |sorted| - 1;
      SoonerIsTotal(nested, sorted[n], x);
      hide CompareSequence, Sooner;
      if CompareSequence(nested[sorted[n]], nested[x]) <= 0 {
        forall c: nat | c in sorted ensures Sooner(nested, c, x) {
          var i :| 0 <= i < |sorted| && sorted[i] == c;
          if i < n {
            SoonerIsTransitive(nested, sorted[i], sorted[n], x);
          }
        }
        SortedAppend(nested, sorted, x);
      } else {
        InsertSorts(nested, sorted[..n], x);
        InsertMembers(nested, sorted[..n], x);
        var r := Insert(nested, sorted[..n], x);
        forall c: nat | c in r ensures Sooner(nested, c, sorted[n]) {
          assert c in sorted[..n] || c == x;
        }
        SortedAppend(nested, r, sorted[n]);
      }
    }
  }

  lemma SoonerIsTotal(nested: seq<ToolEvent>, c: nat, d: nat)
    requires c < d < |nested|
    ensures if CompareSequence(nested[c], nested[d]) <= 0 then Sooner(nested, c, d) else Sooner(nested, d, c)
  {
  }

  lemma SoonerIsTransitive(nested: seq<ToolEvent>, c: nat, d: nat, e: nat)
    requires c < |nested| && d < |nested| && e < |nested| && Sooner(nested, c, d) && Sooner(nested, d, e)
    ensures Sooner(nested, c, e)
  {
  }

  lemma {:induction false} StableSortSorts(nested: seq<ToolEvent>, list: seq<nat>)
    requires IndexesOf(nested, list) && Ascends(list)
    ensures IsSorted(nested, StableSort(nested, list))
    ensures forall c: nat :: c in StableSort(nested, list) <==> c in list
  {
    if list != [] {
      var n := |list| - 1;
      StableSortSorts(nested, list[..n]);
      var sorted := StableSort(nested, list[..n]);
      forall i | 0 <= i < |sorted| ensures sorted[i] < list[n] {
        assert sorted[i] in list[..n];
      }
      InsertSorts(nested, sorted, list[n]);
      InsertMembers(nested, sorted, list[n]);
      assert list == list[..n] + [list[n]];
    }
  }

  /** Siblings are exactly the children of the parent, in stable sequence order. */
  lemma SiblingsAreStable(nested: seq<ToolEvent>, parent: string)
    ensures IsSorted(nested, Siblings(nested, parent))
    ensures forall c: nat :: c in Siblings(nested, parent) <==> IsChild(nested, c, parent)
  {
    ChildrenAscend(nested, parent, |nested|);
    StableSortSorts(nested, Children(nested, parent, |nested|));
  }

  // ----- orders -----

  function Resolve(outer: seq<ToolEvent>, nested: seq<ToolEvent>, r: Ref): ToolEvent
    requires InRange(outer, nested, r)
  {
    if r.OuterRef? then outer[r.index] else nested[r.index]
  }

  predicate InRange(outer: seq<ToolEvent>, nested: seq<ToolEvent>, r: Ref) {
    r.index < (if r.OuterRef? then |outer| else |nested|)
  }

  /** The merged events are the events of the order, one by one. */
  ghost predicate Spells(outer: seq<ToolEvent>, nested: seq<ToolEvent>, order: seq<Ref>, merged: seq<ToolEvent>) {
    && |merged| == |order|
    && forall k | 0 <= k < |order| ::
      InRange(outer, nested, order[k]) && merged[k] == Resolve(outer, nested, order[k])
  }

  function OuterPart(order: seq<Ref>): seq<nat> {
    if order == [] then []
    else
      var n := |order| - 1;
      OuterPart(order[..n]) + (if order[n].OuterRef? then [order[n].index] else [])
  }

  function NestedPart(order: seq<Ref>): seq<nat> {
    if order == [] then []
    else
      var n := |order| - 1;
      NestedPart(order[..n]) + (if order[n].NestedRef? then [order[n].index] else [])
  }

  function Upto(n: nat): (r: seq<nat>)
    ensures |r| == n && forall i | 0 <= i < n :: r[i] == i
  {
    seq(n, i => i)
  }

  lemma PartsAppend(order: seq<Ref>, r: Ref)
    ensures OuterPart(order + [r]) == OuterPart(order) + (if r.OuterRef? then [r.index] else [])
    ensures NestedPart(order + [r]) == NestedPart(order) + (if r.NestedRef? then [r.index] else [])
  {
    assert (order + [r])[..|order|] == order;
  }

  ghost predicate Precedes(order: seq<Ref>, a: Ref, b: Ref) {
    exists x, y :: 0 <= x < y < |order| && order[x] == a && order[y] == b
  }

  lemma PrecedesMore(order: seq<Ref>, r: Ref, a: Ref, b: Ref)
    requires Precedes(order, a, b) || (a in order && b == r)
    ensures Precedes(order + [r], a, b)
  {
    var longer := order + [r];
    if Precedes(order, a, b) {
      var x, y :| 0 <= x < y < |order| && order[x] == a && order[y] == b;
      assert longer[x] == a && longer[y] == b;
    } else {
      var x :| 0 <= x < |order| && order[x] == a;
      assert longer[x] == a && longer[|order|] == b;
    }
  }

  /** Parent links without a cycle: every child ranks below each event that has its parent's call ID. */
  ghost predicate Ranked(nested: seq<ToolEvent>, ranks: seq<int>) {
    && |ranks| == |nested|
    && forall c: nat, e: nat | e < |nested| && IsChild(nested, c, nested[e].callId) :: ranks[c] < ranks[e]
  }

  ghost predicate Acyclic(nested: seq<ToolEvent>) {
    exists ranks: seq<int> :: Ranked(nested, ranks)
  }

  /** Some event of the input has this call ID. */
  ghost predicate Present(outer: seq<ToolEvent>, nested: seq<ToolEvent>, id: string) {
    && id != ""
    && ((exists i | 0 <= i < |outer| :: outer[i].callId == id)
        || (exists i | 0 <= i < |nested| :: nested[i].callId == id))
  }

  /** A nested event that names no parent, or one that is not there. */
  ghost predicate RootOrOrphan(outer: seq<ToolEvent>, nested: seq<ToolEvent>, i: nat) {
    i < |nested| && !Present(outer, nested, nested[i].parentCallId)
  }

  // ----- what every partial order keeps -----

  ghost predicate Listed(nested: seq<ToolEvent>, order: seq<Ref>, appended: set<nat>) {
    && multiset(NestedPart(order)) == multiset(appended)
    && (forall i: nat :: i in appended <==> NestedRef(i) in order)
    && (forall i: nat | i in appended :: i < |nested|)
  }

  ghost predicate OuterChildrenFirst(outer: seq<ToolEvent>, nested: seq<ToolEvent>, order: seq<Ref>) {
    forall i: nat, c: nat | i < |outer| && OuterRef(i) in order && IsChild(nested, c, outer[i].callId) ::
      Precedes(order, NestedRef(c), OuterRef(i))
  }

  ghost predicate NestedChildrenFirst(nested: seq<ToolEvent>, order: seq<Ref>) {
    forall i: nat, c: nat | i < |nested| && NestedRef(i) in order && IsChild(nested, c, nested[i].callId) ::
      Precedes(order, NestedRef(c), NestedRef(i))
  }

  /** Both have the same parent, which is there, and c comes first in stable sequence order. */
  ghost predicate EarlierSibling(outer: seq<ToolEvent>, nested: seq<ToolEvent>, c: nat, d: nat) {
    && c < |nested| && d < |nested|
    && nested[c].parentCallId == nested[d].parentCallId && Present(outer, nested, nested[c].parentCallId)
    && Sooner(nested, c, d)
  }

  ghost predicate SiblingsInOrder(outer: seq<ToolEvent>, nested: seq<ToolEvent>, order: seq<Ref>) {
    forall c: nat, d: nat | EarlierSibling(outer, nested, c, d) && NestedRef(d) in order ::
      Precedes(order, NestedRef(c), NestedRef(d))
  }

  /** Roots and orphans keep their input order: when one is there, all before it are there, and in order. */
  ghost predicate RootsInOrder(outer: seq<ToolEvent>, nested: seq<ToolEvent>, order: seq<Ref>) {
    forall i: nat, j: nat |
      i < j && RootOrOrphan(outer, nested, i) && RootOrOrphan(outer, nested, j) && NestedRef(j) in order ::
      Precedes(order, NestedRef(i), NestedRef(j))
  }

  /** A root or orphan stands behind all outer events. */
  ghost predicate RootsLast(outer: seq<ToolEvent>, nested: seq<ToolEvent>, order: seq<Ref>) {
    forall i: nat, k: nat | k < |outer| && RootOrOrphan(outer, nested, i) && NestedRef(i) in order ::
      Precedes(order, OuterRef(k), NestedRef(i))
  }

  ghost predicate Good(
    outer: seq<ToolEvent>, nested: seq<ToolEvent>, ranks: seq<int>, order: seq<Ref>, appended: set<nat>)
  {
    && Listed(nested, order, appended)
    && OuterChildrenFirst(outer, nested, order)
    && RootsInOrder(outer, nested, order)
    && RootsLast(outer, nested, order)
    && (Ranked(nested, ranks) ==> NestedChildrenFirst(nested, order) && SiblingsInOrder(outer, nested, order))
  }

  /** The nested event may be appended now without breaking the order. */
  ghost predicate Ready(
    outer: seq<ToolEvent>, nested: seq<ToolEvent>, ranks: seq<int>, order: seq<Ref>, appended: set<nat>, i: nat)
  {
    && (Ranked(nested, ranks) ==> SiblingsDone(outer, nested, appended, i))
    && (RootOrOrphan(outer, nested, i) ==> RootsDone(outer, nested, appended, i) && OutersDone(outer, order))
  }

  ghost predicate ChildrenDone(nested: seq<ToolEvent>, appended: set<nat>, parent: string) {
    forall c: nat | IsChild(nested, c, parent) :: c in appended
  }

  ghost predicate SiblingsDone(outer: seq<ToolEvent>, nested: seq<ToolEvent>, appended: set<nat>, i: nat) {
    forall c: nat | EarlierSibling(outer, nested, c, i) :: c in appended
  }

  ghost predicate RootsDone(outer: seq<ToolEvent>, nested: seq<ToolEvent>, appended: set<nat>, i: nat) {
    forall c: nat | c < i && RootOrOrphan(outer, nested, c) :: c in appended
  }

  ghost predicate OutersDone(outer: seq<ToolEvent>, order: seq<Ref>) {
    forall k: nat | k < |outer| :: OuterRef(k) in order
  }

  lemma ListedAppend(nested: seq<ToolEvent>, order: seq<Ref>, appended: set<nat>, i: nat)
    requires Listed(nested, order, appended) && i < |nested| && i !in appended
    ensures Listed(nested, order + [NestedRef(i)], appended + {i})
  {
    PartsAppend(order, NestedRef(i));
  }

  lemma OuterChildrenFirstNested(outer: seq<ToolEvent>, nested: seq<ToolEvent>, order: seq<Ref>, i: nat)
    requires OuterChildrenFirst(outer, nested, order)
    ensures OuterChildrenFirst(outer, nested, order + [NestedRef(i)])
  {
    hide Precedes;
    var longer := order + [NestedRef(i)];
    forall k: nat, c: nat | k < |outer| && OuterRef(k) in longer && IsChild(nested, c, outer[k].callId)
      ensures Precedes(longer, NestedRef(c), OuterRef(k))
    {
      PrecedesMore(order, NestedRef(i), NestedRef(c), OuterRef(k));
    }
  }

  lemma NestedChildrenFirstNested(nested: seq<ToolEvent>, order: seq<Ref>, appended: set<nat>, i: nat)
    requires NestedChildrenFirst(nested, order) && Listed(nested, order, appended)
    requires i < |nested| && ChildrenDone(nested, appended, nested[i].callId)
    ensures NestedChildrenFirst(nested, order + [NestedRef(i)])
  {
    hide Precedes, IsChild;
    var longer := order + [NestedRef(i)];
    forall k: nat, c: nat | k < |nested| && NestedRef(k) in longer && IsChild(nested, c, nested[k].callId)
      ensures Precedes(longer, NestedRef(c), NestedRef(k))
    {
      PrecedesMore(order, NestedRef(i), NestedRef(c), NestedRef(k));
    }
  }

  lemma SiblingsInOrderNested(
    outer: seq<ToolEvent>, nested: seq<ToolEvent>, order: seq<Ref>, appended: set<nat>, i: nat)
    requires SiblingsInOrder(outer, nested, order) && Listed(nested, order, appended)
    requires SiblingsDone(outer, nested, appended, i)
    ensures SiblingsInOrder(outer, nested, order + [NestedRef(i)])
  {
    hide Precedes, EarlierSibling;
    var longer := order + [NestedRef(i)];
    forall c: nat, d: nat | EarlierSibling(outer, nested, c, d) && NestedRef(d) in longer
      ensures Precedes(longer, NestedRef(c), NestedRef(d))
    {
      PrecedesMore(order, NestedRef(i), NestedRef(c), NestedRef(d));
    }
  }

  lemma RootsInOrderNested(outer: seq<ToolEvent>, nested: seq<ToolEvent>, order: seq<Ref>, appended: set<nat>, i: nat)
    requires RootsInOrder(outer, nested, order) && RootsLast(outer, nested, order) && Listed(nested, order, appended)
    requires RootOrOrphan(outer, nested, i) ==> RootsDone(outer, nested, appended, i) && OutersDone(outer, order)
    ensures RootsInOrder(outer, nested, order + [NestedRef(i)]) && RootsLast(outer, nested, order + [NestedRef(i)])
  {
    hide Precedes, RootOrOrphan;
    var longer := order + [NestedRef(i)];
    forall c: nat, d: nat |
      c < d && RootOrOrphan(outer, nested, c) && RootOrOrphan(outer, nested, d) && NestedRef(d) in longer
      ensures Precedes(longer, NestedRef(c), NestedRef(d))
    {
      PrecedesMore(order, NestedRef(i), NestedRef(c), NestedRef(d));
    }
    forall d: nat, k: nat | k < |outer| && RootOrOrphan(outer, nested, d) && NestedRef(d) in longer
      ensures Precedes(longer, OuterRef(k), NestedRef(d))
    {
      PrecedesMore(order, NestedRef(i), OuterRef(k), NestedRef(d));
    }
  }

  /** Appending a ready nested event, whose children are done when links are acyclic, keeps the order good. */
  lemma GoodNested(
    outer: seq<ToolEvent>, nested: seq<ToolEvent>, ranks: seq<int>, order: seq<Ref>, appended: set<nat>, i: nat)
    requires Good(outer, nested, ranks, order, appended) && i < |nested| && i !in appended
    requires Ready(outer, nested, ranks, order, appended, i)
    requires Ranked(nested, ranks) ==> ChildrenDone(nested, appended, nested[i].callId)
    ensures Good(outer, nested, ranks, order + [NestedRef(i)], appended + {i})
  {
    hide Listed, OuterChildrenFirst, RootsInOrder, RootsLast, NestedChildrenFirst, SiblingsInOrder, Ranked,
      SiblingsDone, RootsDone, OutersDone, ChildrenDone, RootOrOrphan;
    ListedAppend(nested, order, appended, i);
    OuterChildrenFirstNested(outer, nested, order, i);
    RootsInOrderNested(outer, nested, order, appended, i);
    if Ranked(nested, ranks) {
      NestedChildrenFirstNested(nested, order, appended, i);
      SiblingsInOrderNested(outer, nested, order, appended, i);
    }
  }

  /** Appending the next outer event after its children keeps the order good, before any root is appended. */
  lemma GoodOuter(
    outer: seq<ToolEvent>, nested: seq<ToolEvent>, ranks: seq<int>, order: seq<Ref>, appended: set<nat>, k: nat)
    requires Good(outer, nested, ranks, order, appended) && k < |outer|
    requires ChildrenDone(nested, appended, outer[k].callId)
    ensures Good(outer, nested, ranks, order + [OuterRef(k)], appended)
  {
    hide IsChild, EarlierSibling, RootOrOrphan, Ranked, Precedes;
    var longer := order + [OuterRef(k)];
    PartsAppend(order, OuterRef(k));
    assert Listed(nested, longer, appended);
    forall i: nat, c: nat | i < |outer| && OuterRef(i) in longer && IsChild(nested, c, outer[i].callId)
      ensures Precedes(longer, NestedRef(c), OuterRef(i))
    {
      PrecedesMore(order, OuterRef(k), NestedRef(c), OuterRef(i));
    }
    forall i: nat, j: nat |
      i < j && RootOrOrphan(outer, nested, i) && RootOrOrphan(outer, nested, j) && NestedRef(j) in longer
      ensures Precedes(longer, NestedRef(i), NestedRef(j))
    {
      PrecedesMore(order, OuterRef(k), NestedRef(i), NestedRef(j));
    }
    forall i: nat, j: nat | j < |outer| && RootOrOrphan(outer, nested, i) && NestedRef(i) in longer
      ensures Precedes(longer, OuterRef(j), NestedRef(i))
    {
      PrecedesMore(order, OuterRef(k), OuterRef(j), NestedRef(i));
    }
    if Ranked(nested, ranks) {
      forall i: nat, c: nat | i < |nested| && NestedRef(i) in longer && IsChild(nested, c, nested[i].callId)
        ensures Precedes(longer, NestedRef(c), NestedRef(i))
      {
        PrecedesMore(order, OuterRef(k), NestedRef(c), NestedRef(i));
      }
      forall c: nat, d: nat | EarlierSibling(outer, nested, c, d) && NestedRef(d) in longer
        ensures Precedes(longer, NestedRef(c), NestedRef(d))
      {
        PrecedesMore(order, OuterRef(k), NestedRef(c), NestedRef(d));
      }
    }
  }

  lemma GoodNothing(outer: seq<ToolEvent>, nested: seq<ToolEvent>, ranks: seq<int>)
    ensures Good(outer, nested, ranks, [], {})
  {
  }

  // ----- the tables -----

  function Lookup(m: map<string, seq<nat>>, key: string): seq<nat> {
    if key in m then m[key] else []
  }

  /** The non-empty call IDs of the first n events. */
  ghost predicate IdsOf(events: seq<ToolEvent>, n: nat, ids: set<string>) {
    forall id: string :: id in ids <==> id != "" && exists i | 0 <= i < n && i < |events| :: events[i].callId == id
  }

  lemma IdsArePresent(outer: seq<ToolEvent>, nested: seq<ToolEvent>, outerIds: set<string>, nestedIds: set<string>)
    requires IdsOf(outer, |outer|, outerIds) && IdsOf(nested, |nested|, nestedIds)
    ensures forall id: string :: (id in outerIds || id in nestedIds) <==> Present(outer, nested, id)
  {
  }

  /** The children of every parent among the first n nested events, in input order. */
  ghost predicate Grouped(nested: seq<ToolEvent>, n: nat, children: map<string, seq<nat>>) {
    n <= |nested| && forall p: string :: Lookup(children, p) == Children(nested, p, n)
  }

  lemma GroupedNext(nested: seq<ToolEvent>, n: nat, before: map<string, seq<nat>>, after: map<string, seq<nat>>)
    requires n < |nested| && Grouped(nested, n, before)
    requires after ==
      if nested[n].parentCallId == "" then before
      else before[nested[n].parentCallId := Lookup(before, nested[n].parentCallId) + [n]]
    ensures Grouped(nested, n + 1, after)
  {
    forall p: string ensures Lookup(after, p) == Children(nested, p, n + 1) {
      assert Lookup(before, p) == Children(nested, p, n);
    }
  }

  lemma GroupedNothing(nested: seq<ToolEvent>)
    ensures Grouped(nested, 0, map[])
  {
  }

  method CallIds(events: seq<ToolEvent>) returns (ids: set<string>)
    ensures IdsOf(events, |events|, ids)
  {
    ids := {};
    for index := 0 to |events|
      invariant IdsOf(events, index, ids)
    {
      ghost var before := ids;
      if events[index].callId != "" {
        ids := ids + {events[index].callId};
      }
      IdsNext(events, index, before, ids);
    }
  }

  lemma IdsNext(events: seq<ToolEvent>, n: nat, before: set<string>, after: set<string>)
    requires n < |events| && IdsOf(events, n, before)
    requires after == if events[n].callId == "" then before else before + {events[n].callId}
    ensures IdsOf(events, n + 1, after)
  {
    forall id: string
      ensures id in after <==> id != "" && exists i | 0 <= i < n + 1 && i < |events| :: events[i].callId == id
    {
      if id in before {
        var i :| 0 <= i < n && events[i].callId == id;
      }
    }
  }

  /** Each parent's children, sorted. */
  method ChildrenByParent(nested: seq<ToolEvent>) returns (children: map<string, seq<nat>>)
    ensures forall p: string :: Lookup(children, p) == Siblings(nested, p)
  {
    hide Siblings, StableSort, Children;
    children := map[];
    GroupedNothing(nested);
    for index := 0 to |nested|
      invariant Grouped(nested, index, children)
    {
      ghost var before := children;
      var parent := nested[index].parentCallId;
      if parent != "" {
        children := children[parent := Lookup(children, parent) + [index]];
      }
      GroupedNext(nested, index, before, children);
    }
    children := SortGroups(nested, children);
  }

  method SortGroups(nested: seq<ToolEvent>, groups: map<string, seq<nat>>) returns (sorted: map<string, seq<nat>>)
    requires Grouped(nested, |nested|, groups)
    ensures forall p: string :: Lookup(sorted, p) == Siblings(nested, p)
  {
    hide StableSort, Children;
    sorted := groups;
    var parents := groups.Keys;
    while parents != {}
      invariant sorted.Keys == groups.Keys && parents <= groups.Keys
      invariant forall p | p in parents :: sorted[p] == groups[p]
      invariant forall p | p in groups.Keys && p !in parents :: sorted[p] == Siblings(nested, p)
      decreases |parents|
    {
      var parent :| parent in parents;
      assert Lookup(groups, parent) == Children(nested, parent, |nested|);
      sorted := sorted[parent := StableSort(nested, sorted[parent])];
      parents := parents - {parent};
    }
    forall p: string ensures Lookup(sorted, p) == Siblings(nested, p) {
      assert Lookup(groups, p) == Children(nested, p, |nested|);
      if p !in groups.Keys {
        SortNothing(nested);
      }
    }
  }

  lemma SortNothing(nested: seq<ToolEvent>)
    ensures StableSort(nested, []) == []
  {
  }

  // ----- one traversal -----

  /** What is merged, and ranks that witness acyclic parent links, or anything. */
  datatype Input = Input(outer: seq<ToolEvent>, nested: seq<ToolEvent>, ranks: seq<int>)

  /** How far the merge has come, and the order behind the merged events. */
  datatype Progress = Progress(order: seq<Ref>, appended: set<nat>, visiting: set<nat>, merged: seq<ToolEvent>)

  ghost predicate Sound(x: Input, p: Progress) {
    && Good(x.outer, x.nested, x.ranks, p.order, p.appended)
    && Spells(x.outer, x.nested, p.order, p.merged)
    && p.appended !! p.visiting
    && (forall v: nat | v in p.visiting :: v < |x.nested|)
  }

  /**
   * The children of this parent may be visited: no event that is being visited is one of them when links are acyclic.
   */
  ghost predicate MayTraverse(x: Input, parent: string, visiting: set<nat>) {
    && (parent == "" || Present(x.outer, x.nested, parent))
    && (Ranked(x.nested, x.ranks) ==> Below(x.nested, x.ranks, Siblings(x.nested, parent), visiting))
  }

  ghost predicate MayVisit(x: Input, p: Progress, i: nat) {
    && i < |x.nested|
    && (Ranked(x.nested, x.ranks) ==> Below(x.nested, x.ranks, [i], p.visiting))
    && (i !in p.appended ==> Ready(x.outer, x.nested, x.ranks, p.order, p.appended, i))
  }

  /** What a traversal leaves in place: the order only grows, by nested events whose parents are there. */
  ghost predicate Extends(x: Input, p: Progress, q: Progress) {
    && p.appended <= q.appended && OuterPart(q.order) == OuterPart(p.order) && q.visiting == p.visiting
    && (forall r: Ref | r in p.order :: r in q.order)
    && (forall c: nat | c in q.appended && c !in p.appended :: c < |x.nested| && !RootOrOrphan(x.outer, x.nested, c))
  }

  ghost predicate ExtendsWith(x: Input, p: Progress, q: Progress, i: nat) {
    && p.appended <= q.appended && OuterPart(q.order) == OuterPart(p.order) && q.visiting == p.visiting
    && (forall r: Ref | r in p.order :: r in q.order)
    && (forall c: nat | c in q.appended && c !in p.appended ::
      c < |x.nested| && (c == i || !RootOrOrphan(x.outer, x.nested, c)))
  }

  /** The visit of one event: it is appended afterwards, unless it was being visited. */
  ghost predicate Visited(x: Input, p: Progress, q: Progress, i: nat) {
    && Sound(x, q) && ExtendsWith(x, p, q, i)
    && (i in q.appended || i in q.visiting)
    && (i in p.appended ==> q == p)
  }

  /** The first `index` children of the parent have been visited. */
  ghost predicate Traversing(x: Input, p: Progress, q: Progress, parent: string, index: nat) {
    && MayTraverse(x, parent, p.visiting) && Sound(x, q) && Extends(x, p, q)
    && index <= |Siblings(x.nested, parent)|
    && forall k | 0 <= k < index ::
      Siblings(x.nested, parent)[k] in q.appended || Siblings(x.nested, parent)[k] in q.visiting
  }

  /** The traversal of a parent: all its children are appended or being visited, and appended when links are acyclic. */
  ghost predicate Traversed(x: Input, p: Progress, q: Progress, parent: string) {
    && Sound(x, q) && Extends(x, p, q)
    && (forall c: nat | IsChild(x.nested, c, parent) :: c in q.appended || c in q.visiting)
    && (Ranked(x.nested, x.ranks) ==> ChildrenDone(x.nested, q.appended, parent))
  }

  lemma StartTraversal(x: Input, p: Progress, parent: string)
    requires Sound(x, p) && MayTraverse(x, parent, p.visiting)
    ensures Traversing(x, p, p, parent, 0)
  {
    hide Sound, MayTraverse;
  }

  /** With everything before it done, the next sibling may be visited. */
  lemma ChildMayBeVisited(x: Input, p: Progress, q: Progress, parent: string, index: nat)
    requires Traversing(x, p, q, parent, index) && index < |Siblings(x.nested, parent)|
    ensures var child := Siblings(x.nested, parent)[index];
      MayVisit(x, q, child) && !RootOrOrphan(x.outer, x.nested, child)
    ensures var pending := Pending(x.nested, q.appended, q.visiting);
      pending == Pending(x.nested, p.appended, p.visiting) || pending < Pending(x.nested, p.appended, p.visiting)
  {
    hide Present, Ranked, Siblings, Sound, OuterPart;
    var children := Siblings(x.nested, parent);
    var child := children[index];
    SiblingsAreStable(x.nested, parent);
    assert child in children && IsChild(x.nested, child, parent);
    if Ranked(x.nested, x.ranks) {
      forall c: nat | EarlierSibling(x.outer, x.nested, c, child) ensures c in q.appended {
        assert IsChild(x.nested, c, parent);
        var k :| 0 <= k < |children| && children[k] == c;
        SoonerStandsBefore(x.nested, children, k, index);
      }
    }
  }

  lemma ChildVisited(x: Input, p: Progress, q: Progress, r: Progress, parent: string, index: nat)
    requires Traversing(x, p, q, parent, index) && index < |Siblings(x.nested, parent)|
    requires Visited(x, q, r, Siblings(x.nested, parent)[index])
    requires !RootOrOrphan(x.outer, x.nested, Siblings(x.nested, parent)[index])
    ensures Traversing(x, p, r, parent, index + 1)
  {
    hide RootOrOrphan, OuterPart, Sound, MayTraverse, Siblings;
  }

  lemma AllChildrenVisited(x: Input, p: Progress, q: Progress, parent: string)
    requires Traversing(x, p, q, parent, |Siblings(x.nested, parent)|)
    ensures Traversed(x, p, q, parent)
  {
    hide Sound, Siblings, OuterPart, Ranked, Present, RootOrOrphan;
    var children := Siblings(x.nested, parent);
    SiblingsAreStable(x.nested, parent);
    forall c: nat | IsChild(x.nested, c, parent)
      ensures c in q.appended || c in q.visiting
      ensures Ranked(x.nested, x.ranks) ==> c in q.appended
    {
      var k :| 0 <= k < |children| && children[k] == c;
      assert c in children;
    }
  }

  /** Before an event's children are traversed, it is marked as being visited. */
  lemma StartVisit(x: Input, p: Progress, i: nat)
    requires Sound(x, p) && MayVisit(x, p, i) && i !in p.appended && i !in p.visiting
    ensures Sound(x, p.(visiting := p.visiting + {i}))
    ensures MayTraverse(x, x.nested[i].callId, p.visiting + {i})
    ensures Pending(x.nested, p.appended, p.visiting + {i}) < Pending(x.nested, p.appended, p.visiting)
  {
    hide Good, Spells, Ready, Ranked, Siblings;
    OwnIdIsPresent(x.outer, x.nested, i);
    PendingDrops(x.nested, p.appended, p.visiting, i);
    if Ranked(x.nested, x.ranks) {
      ChildrenAreBelow(x.nested, x.ranks, i, p.visiting);
    }
  }

  /** After its children, the event is appended. */
  lemma EndVisit(x: Input, p: Progress, q: Progress, i: nat)
    requires Sound(x, p) && MayVisit(x, p, i) && i !in p.appended && i !in p.visiting
    requires Traversed(x, p.(visiting := p.visiting + {i}), q, x.nested[i].callId)
    ensures Visited(x, p, Progress(
      q.order + [NestedRef(i)], q.appended + {i}, q.visiting - {i}, q.merged + [x.nested[i]]), i)
  {
    hide Good, Spells, Ranked, Below, IsChild, ChildrenDone, RootOrOrphan;
    assert i !in q.appended && q.visiting - {i} == p.visiting;
    StillReady(x, p, q, i);
    GoodNested(x.outer, x.nested, x.ranks, q.order, q.appended, i);
    SpellsNext(x.outer, x.nested, q.order, q.merged, NestedRef(i));
    PartsAppend(q.order, NestedRef(i));
  }

  lemma StillReady(x: Input, p: Progress, q: Progress, i: nat)
    requires Ready(x.outer, x.nested, x.ranks, p.order, p.appended, i) && p.appended <= q.appended
    requires forall r: Ref | r in p.order :: r in q.order
    ensures Ready(x.outer, x.nested, x.ranks, q.order, q.appended, i)
  {
    hide Ranked, EarlierSibling, RootOrOrphan;
  }

  lemma NothingVisited(x: Input, p: Progress, i: nat)
    requires Sound(x, p) && (i in p.appended || i in p.visiting)
    ensures Visited(x, p, p, i)
  {
    hide Sound, OuterPart;
  }

  // ----- the three passes -----

  /** The first k outer events are merged, each behind its children, and no root yet. */
  ghost predicate OutersUpTo(x: Input, p: Progress, k: nat) {
    && Sound(x, p) && p.visiting == {} && OuterPart(p.order) == Upto(k)
    && forall c: nat | c in p.appended :: !RootOrOrphan(x.outer, x.nested, c)
  }

  lemma NoOuterYet(x: Input)
    ensures OutersUpTo(x, Progress([], {}, {}, []), 0)
  {
    GoodNothing(x.outer, x.nested, x.ranks);
  }

  lemma OuterMayTraverse(x: Input, p: Progress, k: nat)
    requires OutersUpTo(x, p, k) && k < |x.outer|
    ensures MayTraverse(x, x.outer[k].callId, p.visiting)
  {
    hide Sound, RootOrOrphan, Siblings, Ranked, OuterPart;
    OuterIdIsPresent(x.outer, x.nested, k);
  }

  lemma OuterAppended(x: Input, p: Progress, q: Progress, k: nat)
    requires OutersUpTo(x, p, k) && k < |x.outer| && Traversed(x, p, q, x.outer[k].callId)
    ensures OutersUpTo(x, Progress(q.order + [OuterRef(k)], q.appended, q.visiting, q.merged + [x.outer[k]]), k + 1)
  {
    hide Good, Spells, Ranked, IsChild, RootOrOrphan;
    AllAreChildrenDone(x.nested, q.appended, x.outer[k].callId);
    GoodOuter(x.outer, x.nested, x.ranks, q.order, q.appended, k);
    SpellsNext(x.outer, x.nested, q.order, q.merged, OuterRef(k));
    PartsAppend(q.order, OuterRef(k));
  }

  /** All outer events are merged, and the roots and orphans among the first k nested ones. */
  ghost predicate RootsUpTo(x: Input, p: Progress, k: nat) {
    && Sound(x, p) && p.visiting == {} && OuterPart(p.order) == Upto(|x.outer|)
    && RootsDone(x.outer, x.nested, p.appended, k)
    && forall c: nat | c in p.appended && k <= c :: !RootOrOrphan(x.outer, x.nested, c)
  }

  lemma NoRootYet(x: Input, p: Progress)
    requires OutersUpTo(x, p, |x.outer|)
    ensures RootsUpTo(x, p, 0)
  {
    hide Sound, RootOrOrphan, OuterPart;
  }

  /** A root has no siblings whose parent is there. */
  lemma RootMayBeVisited(x: Input, p: Progress, k: nat)
    requires RootsUpTo(x, p, k) && RootOrOrphan(x.outer, x.nested, k)
    ensures MayVisit(x, p, k)
  {
    AllOutersDone(x.outer, p.order);
    hide Sound, Present, RootsDone, OutersDone, Sooner, Ranked, OuterPart;
  }

  lemma RootVisited(x: Input, p: Progress, q: Progress, k: nat)
    requires RootsUpTo(x, p, k)
    requires if RootOrOrphan(x.outer, x.nested, k) then Visited(x, p, q, k) else q == p
    ensures RootsUpTo(x, q, k + 1)
  {
    hide Sound, RootOrOrphan, OuterPart;
  }

  /** The roots are merged, and the first k nested events; with acyclic links that was everything. */
  ghost predicate RestUpTo(x: Input, start: Progress, p: Progress, k: nat) {
    && Sound(x, p) && p.visiting == {} && OuterPart(p.order) == Upto(|x.outer|)
    && RootsDone(x.outer, x.nested, p.appended, |x.nested|)
    && (forall c: nat | c < k :: c in p.appended)
    && (Ranked(x.nested, x.ranks) ==> p == start && forall c: nat | c < |x.nested| :: c in p.appended)
  }

  lemma RootsWereEverything(x: Input, p: Progress)
    requires RootsUpTo(x, p, |x.nested|)
    ensures RestUpTo(x, p, p, 0)
  {
    if Ranked(x.nested, x.ranks) {
      EverythingAppended(x.outer, x.nested, x.ranks, p.order, p.appended);
    }
    hide Good, Spells, Ranked, RootsDone, OuterPart, RootOrOrphan;
  }

  /** What is left after the roots is no root, and there is none when links are acyclic. */
  lemma RestMayBeVisited(x: Input, start: Progress, p: Progress, k: nat)
    requires RestUpTo(x, start, p, k) && k < |x.nested|
    ensures MayVisit(x, p, k)
  {
    hide Sound, Present, Ranked, OuterPart;
  }

  lemma RestVisited(x: Input, start: Progress, p: Progress, q: Progress, k: nat)
    requires RestUpTo(x, start, p, k) && k < |x.nested| && Visited(x, p, q, k)
    ensures RestUpTo(x, start, q, k + 1)
  {
    hide Sound, Ranked, RootOrOrphan, OuterPart;
  }

  // ----- the merger -----

  class NestedToolEventMerger {
    const outer: seq<ToolEvent>
    const nested: seq<ToolEvent>
    ghost const ranks: seq<int>
    var childrenByParent: map<string, seq<nat>>
    var nestedCallIds: set<string>
    var outerCallIds: set<string>
    var appended: set<nat>
    var visiting: set<nat>
    var merged: seq<ToolEvent>
    ghost var order: seq<Ref>

    ghost predicate Tables()
      reads this`childrenByParent, this`nestedCallIds, this`outerCallIds
    {
      && (forall p: string :: Lookup(childrenByParent, p) == Siblings(nested, p))
      && (forall id: string :: (id in outerCallIds || id in nestedCallIds) <==> Present(outer, nested, id))
    }

    ghost function Given(): Input {
      Input(outer, nested, ranks)
    }

    ghost function Now(): Progress
      reads this`order, this`appended, this`visiting, this`merged
    {
      Progress(order, appended, visiting, merged)
    }

    constructor (outer: seq<ToolEvent>, nested: seq<ToolEvent>, ghost ranks: seq<int>)
      ensures Given() == Input(outer, nested, ranks)
      ensures Tables() && Now() == Progress([], {}, {}, [])
    {
      var outerIds := CallIds(outer);
      var nestedIds := CallIds(nested);
      var groups := ChildrenByParent(nested);
      this.outer, this.nested, this.ranks := outer, nested, ranks;
      childrenByParent, outerCallIds, nestedCallIds := groups, outerIds, nestedIds;
      appended, visiting, merged, order := {}, {}, [], [];
      new;
      IdsArePresent(outer, nested, outerCallIds, nestedCallIds);
    }

    /** A nested event that names no parent, or one that no event has. */
    predicate IsRootOrOrphan(i: nat)
      requires i < |nested|
      reads this`nestedCallIds, this`outerCallIds
    {
      || nested[i].parentCallId == ""
      || (nested[i].parentCallId !in nestedCallIds && nested[i].parentCallId !in outerCallIds)
    }

    method AppendChildren(parentCallId: string)
      requires Tables() && Sound(Given(), Now()) && MayTraverse(Given(), parentCallId, visiting)
      modifies this`appended, this`visiting, this`merged, this`order
      ensures Traversed(Given(), old(Now()), Now(), parentCallId)
      decreases Pending(nested, appended, visiting), 1
    {
      hide Sound, MayTraverse, Traversed, Traversing, MayVisit, Visited, Siblings, Pending, RootOrOrphan;
      var children := Lookup(childrenByParent, parentCallId);
      StartTraversal(Given(), Now(), parentCallId);
      for index := 0 to |children|
        invariant Traversing(Given(), old(Now()), Now(), parentCallId, index)
      {
        ghost var before := Now();
        ChildMayBeVisited(Given(), old(Now()), before, parentCallId, index);
        SoundSoFar(Given(), old(Now()), before, parentCallId, index);
        AppendNested(children[index]);
        ChildVisited(Given(), old(Now()), before, Now(), parentCallId, index);
      }
      AllChildrenVisited(Given(), old(Now()), Now(), parentCallId);
    }

    method AppendNested(i: nat)
      requires Tables() && Sound(Given(), Now()) && MayVisit(Given(), Now(), i) && i < |nested|
      modifies this`appended, this`visiting, this`merged, this`order
      ensures Visited(Given(), old(Now()), Now(), i)
      decreases Pending(nested, appended, visiting), 0
    {
      hide Sound, MayTraverse, Traversed, MayVisit, Visited, Pending;
      if i in appended || i in visiting {
        NothingVisited(Given(), Now(), i);
        return;
      }
      StartVisit(Given(), Now(), i);
      visiting := visiting + {i};
      AppendChildren(nested[i].callId);
      EndVisit(Given(), old(Now()), Now(), i);
      visiting := visiting - {i};
      appended := appended + {i};
      merged := merged + [nested[i]];
      order := order + [NestedRef(i)];
    }

    /** Outer events, each behind its children. */
    method AppendOuterEvents()
      requires Tables() && OutersUpTo(Given(), Now(), 0)
      modifies this`appended, this`visiting, this`merged, this`order
      ensures OutersUpTo(Given(), Now(), |outer|)
    {
      hide Sound, MayTraverse, Traversed, OutersUpTo;
      for index := 0 to |outer|
        invariant OutersUpTo(Given(), Now(), index)
      {
        ghost var before := Now();
        OuterMayTraverse(Given(), before, index);
        SoundOuters(Given(), before, index);
        AppendChildren(outer[index].callId);
        OuterAppended(Given(), before, Now(), index);
        merged := merged + [outer[index]];
        order := order + [OuterRef(index)];
      }
    }

    /** Roots and orphans, each behind its children. */
    method AppendRoots()
      requires Tables() && RootsUpTo(Given(), Now(), 0)
      modifies this`appended, this`visiting, this`merged, this`order
      ensures RootsUpTo(Given(), Now(), |nested|)
    {
      hide Sound, MayVisit, Visited, RootsUpTo, Present;
      for index := 0 to |nested|
        invariant RootsUpTo(Given(), Now(), index)
      {
        ghost var before := Now();
        NoIdIsAbsent(outer, nested);
        if IsRootOrOrphan(index) {
          RootMayBeVisited(Given(), before, index);
          SoundRoots(Given(), before, index);
          AppendNested(index);
        }
        RootVisited(Given(), before, Now(), index);
      }
    }

    /** Whatever is left, which only a cycle of parent links can leave. */
    method AppendRest()
      requires Tables() && RootsUpTo(Given(), Now(), |nested|)
      modifies this`appended, this`visiting, this`merged, this`order
      ensures RestUpTo(Given(), old(Now()), Now(), |nested|)
    {
      hide Sound, MayVisit, Visited, RootsUpTo, RestUpTo;
      RootsWereEverything(Given(), Now());
      for index := 0 to |nested|
        invariant RestUpTo(Given(), old(Now()), Now(), index)
      {
        ghost var before := Now();
        RestMayBeVisited(Given(), old(Now()), before, index);
        SoundRest(Given(), old(Now()), before, index);
        AppendNested(index);
        RestVisited(Given(), old(Now()), before, Now(), index);
      }
    }
  }

  lemma SoundSoFar(x: Input, p: Progress, q: Progress, parent: string, index: nat)
    requires Traversing(x, p, q, parent, index)
    ensures Sound(x, q)
  {
    hide Sound;
  }

  lemma SoundOuters(x: Input, p: Progress, k: nat)
    requires OutersUpTo(x, p, k)
    ensures Sound(x, p)
  {
    hide Sound;
  }

  lemma SoundRoots(x: Input, p: Progress, k: nat)
    requires RootsUpTo(x, p, k)
    ensures Sound(x, p)
  {
    hide Sound;
  }

  lemma SoundRest(x: Input, start: Progress, p: Progress, k: nat)
    requires RestUpTo(x, start, p, k)
    ensures Sound(x, p)
  {
    hide Sound;
  }

  lemma NoIdIsAbsent(outer: seq<ToolEvent>, nested: seq<ToolEvent>)
    ensures !Present(outer, nested, "")
  {
  }

  lemma AllAreChildrenDone(nested: seq<ToolEvent>, appended: set<nat>, parent: string)
    requires forall c: nat | IsChild(nested, c, parent) :: c in appended
    ensures ChildrenDone(nested, appended, parent)
  {
  }

  lemma MergedEverything(x: Input, start: Progress, p: Progress)
    requires RestUpTo(x, start, p, |x.nested|) && (Acyclic(x.nested) ==> Ranked(x.nested, x.ranks))
    ensures IsMerge(x.outer, x.nested, p.order, p.merged)
  {
    hide Spells, OuterChildrenFirst, RootsInOrder, RootsLast, NestedChildrenFirst, SiblingsInOrder, Ranked, RootsDone,
      Acyclic;
    AppendedOnce(x.nested, p.order, p.appended);
  }

  function Indexes(n: nat): (r: set<nat>)
    ensures forall i: nat :: i in r <==> i < n
  {
    if n == 0 then {} else Indexes(n - 1) + {n - 1}
  }

  function Pending(nested: seq<ToolEvent>, appended: set<nat>, visiting: set<nat>): set<nat> {
    Indexes(|nested|) - appended - visiting
  }

  lemma PendingDrops(nested: seq<ToolEvent>, appended: set<nat>, visiting: set<nat>, i: nat)
    requires i < |nested| && i !in appended && i !in visiting
    ensures Pending(nested, appended, visiting + {i}) < Pending(nested, appended, visiting)
  {
    assert i in Pending(nested, appended, visiting);
  }

  /** All of the events rank below everything that is being visited. */
  ghost predicate Below(nested: seq<ToolEvent>, ranks: seq<int>, events: seq<nat>, visiting: set<nat>) {
    forall c: nat, v: nat | c in events && v in visiting :: c < |ranks| && v < |ranks| && ranks[c] < ranks[v]
  }

  lemma ChildrenAreBelow(nested: seq<ToolEvent>, ranks: seq<int>, i: nat, visiting: set<nat>)
    requires Ranked(nested, ranks) && i < |nested| && Below(nested, ranks, [i], visiting)
    ensures Below(nested, ranks, Siblings(nested, nested[i].callId), visiting + {i})
  {
    var children := Siblings(nested, nested[i].callId);
    SiblingsAreStable(nested, nested[i].callId);
    forall c: nat, v: nat | c in children && v in visiting + {i}
      ensures c < |ranks| && v < |ranks| && ranks[c] < ranks[v]
    {
      assert IsChild(nested, c, nested[i].callId);
      assert i in [i];
    }
  }

  lemma SoonerStandsBefore(nested: seq<ToolEvent>, list: seq<nat>, k: nat, j: nat)
    requires k < |list| && j < |list| && IndexesOf(nested, list) && IsSorted(nested, list)
    requires Sooner(nested, list[k], list[j])
    ensures k < j
  {
  }

  lemma OwnIdIsPresent(outer: seq<ToolEvent>, nested: seq<ToolEvent>, i: nat)
    requires i < |nested|
    ensures nested[i].callId == "" || Present(outer, nested, nested[i].callId)
  {
  }

  lemma OuterIdIsPresent(outer: seq<ToolEvent>, nested: seq<ToolEvent>, i: nat)
    requires i < |outer|
    ensures outer[i].callId == "" || Present(outer, nested, outer[i].callId)
  {
  }

  lemma {:induction false} OuterPartMembers(order: seq<Ref>, k: nat)
    ensures k in OuterPart(order) <==> OuterRef(k) in order
  {
    if order != [] {
      var n := |order| - 1;
      OuterPartMembers(order[..n], k);
      assert order == order[..n] + [order[n]];
    }
  }

  lemma AllOutersDone(outer: seq<ToolEvent>, order: seq<Ref>)
    requires OuterPart(order) == Upto(|outer|)
    ensures OutersDone(outer, order)
  {
    forall k: nat | k < |outer| ensures OuterRef(k) in order {
      assert Upto(|outer|)[k] == k;
      OuterPartMembers(order, k);
    }
  }

  lemma AppendedOnce(nested: seq<ToolEvent>, order: seq<Ref>, appended: set<nat>)
    requires Listed(nested, order, appended) && forall c: nat | c < |nested| :: c in appended
    ensures multiset(NestedPart(order)) == multiset(Upto(|nested|))
  {
    UptoOnce(|nested|);
    assert appended == Indexes(|nested|);
  }

  lemma {:induction false} UptoOnce(n: nat)
    ensures multiset(Upto(n)) == multiset(Indexes(n))
  {
    if n > 0 {
      UptoOnce(n - 1);
      assert Upto(n) == Upto(n - 1) + [n - 1];
    }
  }

  lemma {:induction false} OuterAlone(outer: seq<ToolEvent>, order: seq<Ref>)
    requires |order| == |outer| && forall i | 0 <= i < |order| :: order[i] == OuterRef(i)
    ensures Spells(outer, [], order, outer) && EachOnce(outer, [], order) && OuterChildrenFirst(outer, [], order)
    ensures RootsInOrder(outer, [], order) && RootsLast(outer, [], order)
    ensures NestedChildrenFirst([], order) && SiblingsInOrder(outer, [], order)
  {
    OuterParts(order, |order|);
    assert order[..|order|] == order;
    assert Upto(0) == [];
  }

  lemma {:induction false} OuterParts(order: seq<Ref>, n: nat)
    requires n <= |order| && forall i | 0 <= i < |order| :: order[i] == OuterRef(i)
    ensures OuterPart(order[..n]) == Upto(n) && NestedPart(order[..n]) == []
  {
    if n > 0 {
      OuterParts(order, n - 1);
      assert order[..n] == order[..n - 1] + [order[n - 1]];
      PartsAppend(order[..n - 1], order[n - 1]);
    }
  }

  function MaxRank(ranks: seq<int>): (r: int)
    ensures forall i | 0 <= i < |ranks| :: ranks[i] <= r
  {
    if ranks == [] then 0
    else
      var r := MaxRank(ranks[..|ranks| - 1]);
      if ranks[|ranks| - 1] > r then ranks[|ranks| - 1] else r
  }

  /** With acyclic links, everything hangs below an outer event or a root: nothing is left for a last pass. */
  lemma {:induction false} AppendedFromAbove(
    outer: seq<ToolEvent>, nested: seq<ToolEvent>, ranks: seq<int>, order: seq<Ref>, appended: set<nat>, i: nat)
    requires Good(outer, nested, ranks, order, appended) && Ranked(nested, ranks) && i < |nested|
    requires RootsDone(outer, nested, appended, |nested|) && OutersDone(outer, order)
    ensures i in appended
    decreases MaxRank(ranks) - ranks[i]
  {
    hide RootsInOrder, RootsLast, SiblingsInOrder;
    var parent := nested[i].parentCallId;
    if Present(outer, nested, parent) {
      assert IsChild(nested, i, parent);
      if k: nat :| k < |outer| && outer[k].callId == parent {
        assert Precedes(order, NestedRef(i), OuterRef(k));
      } else {
        var e: nat :| e < |nested| && nested[e].callId == parent;
        assert ranks[i] < ranks[e];
        AppendedFromAbove(outer, nested, ranks, order, appended, e);
        assert Precedes(order, NestedRef(i), NestedRef(e));
      }
    } else {
      assert RootOrOrphan(outer, nested, i);
    }
  }

  lemma EverythingAppended(
    outer: seq<ToolEvent>, nested: seq<ToolEvent>, ranks: seq<int>, order: seq<Ref>, appended: set<nat>)
    requires Good(outer, nested, ranks, order, appended) && Ranked(nested, ranks)
    requires RootsDone(outer, nested, appended, |nested|) && OuterPart(order) == Upto(|outer|)
    ensures forall c: nat | c < |nested| :: c in appended
  {
    AllOutersDone(outer, order);
    forall c: nat | c < |nested| ensures c in appended {
      AppendedFromAbove(outer, nested, ranks, order, appended, c);
    }
  }

  lemma SpellsNext(outer: seq<ToolEvent>, nested: seq<ToolEvent>, order: seq<Ref>, merged: seq<ToolEvent>, r: Ref)
    requires Spells(outer, nested, order, merged) && InRange(outer, nested, r)
    ensures Spells(outer, nested, order + [r], merged + [Resolve(outer, nested, r)])
  {
  }

  // ----- the merge -----

  /** Every event of the input stands in the order exactly once, the outer ones in their own order. */
  ghost predicate EachOnce(outer: seq<ToolEvent>, nested: seq<ToolEvent>, order: seq<Ref>) {
    && OuterPart(order) == Upto(|outer|)
    && multiset(NestedPart(order)) == multiset(Upto(|nested|))
  }

  /** What the merge promises about its result and the order behind it. */
  ghost predicate IsMerge(outer: seq<ToolEvent>, nested: seq<ToolEvent>, order: seq<Ref>, merged: seq<ToolEvent>) {
    && Spells(outer, nested, order, merged)
    && EachOnce(outer, nested, order)
    && OuterChildrenFirst(outer, nested, order)
    && RootsInOrder(outer, nested, order) && RootsLast(outer, nested, order)
    && (Acyclic(nested) ==> NestedChildrenFirst(nested, order) && SiblingsInOrder(outer, nested, order))
  }

  /** Ranks that witness acyclic parent links, if there are any. */
  ghost function Witness(nested: seq<ToolEvent>): (ranks: seq<int>)
    ensures Acyclic(nested) <==> Ranked(nested, ranks)
  {
    if Acyclic(nested) then
      var ranks :| Ranked(nested, ranks);
      ranks
    else []
  }

  /**
   * The merge terminates on every input. Its result is the outer and the nested events, each exactly once: outer events
   * in their order, every nested event before any outer one that it names as its parent, and roots and orphans behind
   * all of them in input order. When parent links are acyclic every nested event precedes its nested parents, too, and
   * siblings whose parent is there appear in stable sequence order.
   */
  method MergeNestedToolEvents(outer: seq<ToolEvent>, nested: seq<ToolEvent>)
    returns (merged: seq<ToolEvent>)
    ensures exists order :: IsMerge(outer, nested, order, merged)
  {
    hide Ranked, Present, Spells, EachOnce, OuterChildrenFirst, RootsInOrder, RootsLast, NestedChildrenFirst,
      SiblingsInOrder, Listed, Acyclic, IsChild, OutersUpTo, RootsUpTo, RestUpTo, OuterPart;
    if |nested| == 0 {
      ghost var refs := seq(|outer|, i requires 0 <= i < |outer| => OuterRef(i));
      OuterAlone(outer, refs);
      assert IsMerge(outer, nested, refs, outer);
      return outer;
    }
    ghost var ranks := Witness(nested);
    ghost var given := Input(outer, nested, ranks);
    var merger := new NestedToolEventMerger(outer, nested, ranks);
    NoOuterYet(given);
    merger.AppendOuterEvents();
    NoRootYet(given, merger.Now());
    merger.AppendRoots();
    ghost var start := merger.Now();
    merger.AppendRest();
    merged := merger.merged;
    MergedEverything(given, start, merger.Now());
  }
}

/** Parent links and the recursive queries that walk them. Both the
    organization tree (`parent_id`) and merged memberships (`merged_into_id`)
    are forests of this shape. */
module Forest {
  import opened Sql

  /** Every row with its nullable parent link. */
  type Forest = map<Uuid, Option<Uuid>>

  /** The row a recursive join reaches from `n`: the parent, provided it is a row. */
  function Parent(f: Forest, n: Uuid): Option<Uuid> {
    if n in f && f[n].Some? && f[n].value in f then f[n] else None
  }

  /** The row `k` joins above `n`, if the walk gets that far. */
  function Hop(f: Forest, n: Uuid, k: nat): Option<Uuid>
    decreases k
  {
    if n !in f then None
    else if k == 0 then Some(n)
    else match Parent(f, n)
      case None => None
      case Some(p) => Hop(f, p, k - 1)
  }

  /** `m` is `n` or one of the rows above it. */
  ghost predicate Reaches(f: Forest, n: Uuid, m: Uuid) {
    exists k: nat :: Hop(f, n, k) == Some(m)
  }

  ghost predicate CycleAt(f: Forest, n: Uuid, k: nat) {
    k >= 1 && Hop(f, n, k) == Some(n)
  }

  ghost predicate Acyclic(f: Forest) {
    forall n: Uuid, k: nat :: !CycleAt(f, n, k)
  }

  /** The deferred hierarchy check: the row is not among the rows above its parent. */
  ghost predicate ParentCheck(f: Forest, n: Uuid, parent: Option<Uuid>) {
    parent.Some? ==> !Reaches(f, parent.value, n)
  }

  lemma HopAdd(f: Forest, n: Uuid, a: nat, b: nat)
    requires Hop(f, n, a).Some?
    ensures Hop(f, n, a + b) == Hop(f, Hop(f, n, a).value, b)
    decreases a
  {
    if a > 0 {
      HopAdd(f, Parent(f, n).value, a - 1, b);
    }
  }

  lemma {:induction false} HopPrefix(f: Forest, n: Uuid, a: nat, b: nat)
    requires a <= b && Hop(f, n, b).Some?
    ensures Hop(f, n, a).Some? && Hop(f, n, a).value in f
    decreases a
  {
    if a > 0 {
      HopPrefix(f, Parent(f, n).value, a - 1, b - 1);
    }
  }

  /** A cycle can be entered at any of its rows. */
  lemma CycleTurns(f: Forest, n: Uuid, k: nat, j: nat)
    requires CycleAt(f, n, k) && j < k
    ensures Hop(f, n, j).Some? && CycleAt(f, Hop(f, n, j).value, k)
  {
    HopPrefix(f, n, j, k);
    HopAdd(f, n, j, k);
    HopAdd(f, n, k, j);
  }

  /** The deduplicating recursive query: each round joins the rows found in the
      previous round and keeps those not seen before. It ends on every finite
      table, cyclic ones included, and finds exactly the rows above `start`. */
  method AncestorClosure(f: Forest, start: Uuid) returns (found: set<Uuid>)
    ensures forall m :: m in found <==> Reaches(f, start, m)
  {
    found := if start in f then {start} else {};
    var working := found;
    assert start in f ==> Hop(f, start, 0) == Some(start);
    while working != {}
      invariant working <= found <= f.Keys
      invariant start in f ==> start in found
      invariant forall m :: m in found ==> Reaches(f, start, m)
      invariant forall m :: m in found - working && Parent(f, m).Some? ==> Parent(f, m).value in found
      decreases f.Keys - found, working
    {
      var joined := set m | m in working && Parent(f, m).Some? :: Parent(f, m).value;
      forall p | p in joined ensures Reaches(f, start, p) {
        var m :| m in working && Parent(f, m) == Some(p);
        var k: nat :| Hop(f, start, k) == Some(m);
        HopAdd(f, start, k, 1);
        assert Hop(f, m, 1) == Hop(f, p, 0);
      }
      working := joined - found;
      found := found + working;
    }
    forall m | Reaches(f, start, m) ensures m in found {
      var k: nat :| Hop(f, start, k) == Some(m);
      ClosedCoversHops(f, found, start, k);
    }
  }

  lemma {:induction false} ClosedCoversHops(f: Forest, closed: set<Uuid>, n: Uuid, k: nat)
    requires n in f ==> n in closed
    requires forall m :: m in closed && Parent(f, m).Some? ==> Parent(f, m).value in closed
    requires Hop(f, n, k).Some?
    ensures Hop(f, n, k).value in closed
    decreases k
  {
    if k > 0 {
      ClosedCoversHops(f, closed, Parent(f, n).value, k - 1);
    }
  }

  /** Local checks decide global acyclicity: once the old forest is acyclic and
      every row outside `touched` is unchanged, the new forest is acyclic exactly
      when each touched row passes its own check against the new forest. */
  lemma LocalCheckGivesGlobal(before: Forest, after: Forest, touched: set<Uuid>)
    requires Acyclic(before)
    requires forall n :: n in after && n !in touched ==> n in before && before[n] == after[n]
    ensures Acyclic(after) <==> forall n :: n in touched && n in after ==> ParentCheck(after, n, after[n])
  {
    if forall n :: n in touched && n in after ==> ParentCheck(after, n, after[n]) {
      forall n: Uuid, k: nat ensures !CycleAt(after, n, k) {
        if CycleAt(after, n, k) {
          CycleMeetsTouched(before, after, touched, n, k);
        }
      }
    }
    if Acyclic(after) {
      forall n | n in touched && n in after ensures ParentCheck(after, n, after[n]) {
        AcyclicPassesCheck(after, n);
      }
    }
  }

  lemma AcyclicPassesCheck(f: Forest, n: Uuid)
    requires Acyclic(f) && n in f
    ensures ParentCheck(f, n, f[n])
  {
    if f[n].Some? && Reaches(f, f[n].value, n) {
      var k: nat :| Hop(f, f[n].value, k) == Some(n);
      assert CycleAt(f, n, k + 1);
    }
  }

  lemma CycleFailsCheck(f: Forest, n: Uuid, k: nat)
    requires CycleAt(f, n, k)
    ensures n in f && !ParentCheck(f, n, f[n])
  {
    assert Hop(f, f[n].value, k - 1) == Some(n);
  }

  /** Every cycle passes through a touched row, and that row fails its check. */
  lemma CycleMeetsTouched(before: Forest, after: Forest, touched: set<Uuid>, n: Uuid, k: nat)
    requires Acyclic(before)
    requires forall m :: m in after && m !in touched ==> m in before && before[m] == after[m]
    requires CycleAt(after, n, k)
    ensures exists m :: m in touched && m in after && !ParentCheck(after, m, after[m])
  {
    forall j: nat | j < k
      ensures Hop(after, n, j).Some? && Hop(after, n, j).value in after
      ensures !ParentCheck(after, Hop(after, n, j).value, after[Hop(after, n, j).value])
    {
      HopPrefix(after, n, j, k);
      CycleTurns(after, n, k, j);
      CycleFailsCheck(after, Hop(after, n, j).value, k);
    }
    if forall j: nat :: j < k ==> Hop(after, n, j).value !in touched {
      assert Hop(after, n, 0) == Some(n);
      UntouchedWalk(before, after, touched, n, k);
      assert CycleAt(before, n, k);
    }
  }

  lemma {:induction false} UntouchedWalk(before: Forest, after: Forest, touched: set<Uuid>, n: Uuid, k: nat)
    requires forall m :: m in after && m !in touched ==> m in before && before[m] == after[m]
    requires k >= 1 && Hop(after, n, k).Some?
    requires forall j: nat :: j < k ==> Hop(after, n, j).Some? && Hop(after, n, j).value !in touched
    requires Hop(after, n, k).value in before
    ensures Hop(before, n, k) == Hop(after, n, k)
    decreases k
  {
    assert Hop(after, n, 0) == Some(n);
    var p := Parent(after, n).value;
    if k == 1 {
      assert Hop(after, n, 1) == Hop(after, p, 0) == Some(p);
    } else {
      forall j: nat | j < k - 1 ensures Hop(after, p, j).Some? && Hop(after, p, j).value !in touched {
        assert Hop(after, n, j + 1) == Hop(after, p, j);
      }
      assert Hop(after, p, 0) == Some(p);
      UntouchedWalk(before, after, touched, p, k - 1);
    }
  }

  /** Removing rows never adds a row above another. */
  lemma {:induction false} FewerRowsFewerHops(small: Forest, large: Forest, n: Uuid, k: nat)
    requires forall m :: m in small ==> m in large && small[m] == large[m]
    requires Hop(small, n, k).Some?
    ensures Hop(large, n, k) == Hop(small, n, k)
    decreases k
  {
    if k > 0 {
      FewerRowsFewerHops(small, large, Parent(small, n).value, k - 1);
    }
  }

  /** A path in walk order: distinct rows, each the parent of the one before. */
  ghost predicate WalkPath(f: Forest, path: seq<Uuid>) {
    && path != []
    && (forall i :: 0 <= i < |path| ==> path[i] in f)
    && (forall i, j :: 0 <= i < j < |path| ==> path[i] != path[j])
    && (forall i :: 0 <= i < |path| - 1 ==> Parent(f, path[i]) == Some(path[i + 1]))
  }

  /** The path-carrying walk of the integrity scan: extend the path by the parent,
      and report it the moment the parent is already on it. */
  function Walk(f: Forest, path: seq<Uuid>): Option<seq<Uuid>>
    requires WalkPath(f, path)
    decreases f.Keys - (set n | n in path)
  {
    match Parent(f, path[|path| - 1])
    case None => None
    case Some(p) =>
      if p in path then Some(path + [p])
      else
        assert p in f.Keys - (set n | n in path);
        Walk(f, path + [p])
  }

  lemma {:induction false} PathHops(f: Forest, path: seq<Uuid>, i: nat, j: nat)
    requires WalkPath(f, path) && i <= j < |path|
    ensures Hop(f, path[i], j - i) == Some(path[j])
    decreases j - i
  {
    if i < j {
      PathHops(f, path, i + 1, j);
    }
  }

  /** A reported path ends in a row it already visited, on a real cycle above its start. */
  lemma {:induction false} ReportShowsCycle(f: Forest, path: seq<Uuid>)
    requires WalkPath(f, path) && Walk(f, path).Some?
    ensures exists c: Uuid, k: nat :: Reaches(f, path[0], c) && CycleAt(f, c, k)
    decreases f.Keys - (set n | n in path)
  {
    var last := path[|path| - 1];
    var p := Parent(f, last).value;
    if p in path {
      var i: nat :| i < |path| && path[i] == p;
      PathHops(f, path, 0, i);
      PathHops(f, path, i, |path| - 1);
      HopAdd(f, p, |path| - 1 - i, 1);
      assert Hop(f, last, 1) == Hop(f, p, 0) == Some(p);
      assert CycleAt(f, p, |path| - i);
      assert Reaches(f, path[0], p);
    } else {
      assert p in f.Keys - (set n | n in path);
      ReportShowsCycle(f, path + [p]);
    }
  }

  lemma {:induction false} SilenceShowsRoot(f: Forest, path: seq<Uuid>) returns (k: nat)
    requires WalkPath(f, path) && Walk(f, path).None?
    ensures Hop(f, path[|path| - 1], k).Some? && Hop(f, path[|path| - 1], k + 1).None?
    decreases f.Keys - (set n | n in path)
  {
    var last := path[|path| - 1];
    match Parent(f, last)
    case None =>
      k := 0;
    case Some(p) =>
      assert p in f.Keys - (set n | n in path);
      k := SilenceShowsRoot(f, path + [p]);
      k := k + 1;
  }

  lemma {:induction false} CycleNeverEnds(f: Forest, n: Uuid, k: nat, j: nat)
    requires CycleAt(f, n, k)
    ensures Hop(f, n, j).Some?
    decreases j
  {
    if j <= k {
      HopPrefix(f, n, j, k);
    } else {
      CycleNeverEnds(f, n, k, j - k);
      HopAdd(f, n, k, j - k);
    }
  }

  /** The scan reports a start exactly when its walk runs into a cycle. */
  lemma WalkReportsIffEndless(f: Forest, start: Uuid)
    requires start in f
    ensures Walk(f, [start]).Some? <==> forall k: nat :: Hop(f, start, k).Some?
  {
    if Walk(f, [start]).Some? {
      ReportShowsCycle(f, [start]);
      var c: Uuid, k: nat :| Reaches(f, start, c) && CycleAt(f, c, k);
      var a: nat :| Hop(f, start, a) == Some(c);
      forall j: nat ensures Hop(f, start, j).Some? {
        if j <= a {
          HopPrefix(f, start, j, a);
        } else {
          HopAdd(f, start, a, j - a);
          CycleNeverEnds(f, c, k, j - a);
        }
      }
    } else {
      var k := SilenceShowsRoot(f, [start]);
    }
  }

  /** The whole scan is silent exactly when the forest has no cycle. */
  lemma ScanSilentIffAcyclic(f: Forest)
    ensures (forall n :: n in f ==> Walk(f, [n]).None?) <==> Acyclic(f)
  {
    if Acyclic(f) {
      forall n | n in f ensures Walk(f, [n]).None? {
        if Walk(f, [n]).Some? {
          ReportShowsCycle(f, [n]);
        }
      }
    }
    if forall n :: n in f ==> Walk(f, [n]).None? {
      forall n: Uuid, k: nat ensures !CycleAt(f, n, k) {
        if CycleAt(f, n, k) {
          forall j: nat ensures Hop(f, n, j).Some? { CycleNeverEnds(f, n, k, j); }
          WalkReportsIffEndless(f, n);
        }
      }
    }
  }

  /** In an acyclic forest every walk stops at a root. */
  lemma AcyclicHasRoot(f: Forest, n: Uuid) returns (k: nat)
    requires Acyclic(f) && n in f
    ensures Hop(f, n, k).Some? && Hop(f, n, k + 1).None?
  {
    ScanSilentIffAcyclic(f);
    k := SilenceShowsRoot(f, [n]);
  }
}

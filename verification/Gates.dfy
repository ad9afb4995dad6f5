/** Composition of tool gates into one turn's allowlist (src/run.rs). */
module Gates {
  import opened Wrappers
  import opened Transcript
  import opened Config

  datatype GateDecision = GateDecision(plugin: string, priority: int, gateClass: ToolGateClass, suppresses: bool,
                                       allow: set<string>)

  function Decide(gate: ToolGate, view: GateView): Option<GateDecision> {
    match gate.allowlist(view)
    case None => None
    case Some(allow) => Some(GateDecision(gate.name, gate.priority, gate.gateClass, gate.suppressesAdvisory(view),
                                          allow))
  }

  function Decisions(gates: seq<ToolGate>, view: GateView): seq<GateDecision> {
    if gates == [] then []
    else
      var last := Decide(gates[|gates| - 1], view);
      Decisions(gates[..|gates| - 1], view) + (if last.Some? then [last.value] else [])
  }

  /** An advisory decision yields to any suppressing decision of higher priority. */
  predicate Suppressed(all: seq<GateDecision>, d: GateDecision) {
    d.gateClass.Advisory? && exists s :: s in all && s.suppresses && d.priority < s.priority
  }

  function Active(all: seq<GateDecision>, ds: seq<GateDecision>): seq<GateDecision> {
    if ds == [] then []
    else
      var last := ds[|ds| - 1];
      Active(all, ds[..|ds| - 1]) + (if Suppressed(all, last) then [] else [last])
  }

  function Intersection(ds: seq<GateDecision>): set<string>
    requires ds != []
  {
    if |ds| == 1 then ds[0].allow else Intersection(ds[..|ds| - 1]) * ds[|ds| - 1].allow
  }

  function NonEmpty(ds: seq<GateDecision>): seq<GateDecision> {
    if ds == [] then []
    else
      var last := ds[|ds| - 1];
      NonEmpty(ds[..|ds| - 1]) + (if last.allow == {} then [] else [last])
  }

  /** Order of names: by code point, as strings compare. */
  predicate NameLess(a: string, b: string) {
    b != [] && (a == [] || a[0] < b[0] || (a[0] == b[0] && NameLess(a[1..], b[1..])))
  }

  /** The order in which an empty intersection is repaired: priority, then the smaller set, then the smaller name. */
  predicate Outranks(a: GateDecision, b: GateDecision) {
    || a.priority > b.priority
    || (a.priority == b.priority && |a.allow| < |b.allow|)
    || (a.priority == b.priority && |a.allow| == |b.allow| && NameLess(a.plugin, b.plugin))
  }

  /** Iterator::max_by: a later element wins a tie. */
  function Best(ds: seq<GateDecision>): GateDecision
    requires ds != []
  {
    var last := ds[|ds| - 1];
    if |ds| == 1 then last
    else
      var before := Best(ds[..|ds| - 1]);
      if Outranks(before, last) then before else last
  }

  function Compose(ds: seq<GateDecision>): Option<set<string>> {
    var active := Active(ds, ds);
    if active == [] then None
    else if Intersection(active) != {} then Some(Intersection(active))
    else if NonEmpty(active) == [] then None
    else Some(Best(NonEmpty(active)).allow)
  }

  function Allowlist(gates: seq<ToolGate>, view: GateView): Option<set<string>> {
    Compose(Decisions(gates, view))
  }

  // ----- laws of the pieces

  lemma {:induction false} NameLessTotal(a: string, b: string)
    ensures a == b || NameLess(a, b) || NameLess(b, a)
    ensures !(NameLess(a, b) && NameLess(b, a))
    ensures !NameLess(a, a)
  {
    if a != [] {
      NameLessTotal(a[1..], a[1..]);
    }
    if a != [] && b != [] && a[0] == b[0] {
      NameLessTotal(a[1..], b[1..]);
      if a[1..] == b[1..] {
        assert a == [a[0]] + a[1..] && b == [b[0]] + b[1..];
      }
    }
  }

  lemma {:induction false} NameLessTransitive(a: string, b: string, c: string)
    requires NameLess(a, b) && NameLess(b, c)
    ensures NameLess(a, c)
  {
    if a != [] && a[0] == b[0] && b[0] == c[0] {
      NameLessTransitive(a[1..], b[1..], c[1..]);
    }
  }

  /** The repair picks a decision that no other outranks. */
  lemma {:induction false} BestIsMaximal(ds: seq<GateDecision>)
    requires ds != []
    ensures Best(ds) in ds
    ensures forall d :: d in ds ==> !Outranks(d, Best(ds))
    decreases |ds|
  {
    var last := ds[|ds| - 1];
    NameLessTotal(last.plugin, last.plugin);
    if |ds| > 1 {
      var front := ds[..|ds| - 1];
      BestIsMaximal(front);
      var before := Best(front);
      NameLessTotal(before.plugin, last.plugin);
      forall d | d in ds ensures !Outranks(d, Best(ds)) {
        if d in front && !Outranks(before, last) {
          MaximalThroughTie(d, before, last);
        } else if d !in front {
          assert d == last;
        }
      }
    }
  }

  lemma MaximalThroughTie(d: GateDecision, before: GateDecision, last: GateDecision)
    requires !Outranks(d, before) && !Outranks(before, last)
    ensures !Outranks(d, last)
  {
    NameLessTotal(d.plugin, before.plugin);
    NameLessTotal(before.plugin, last.plugin);
    NameLessTotal(d.plugin, last.plugin);
    if NameLess(last.plugin, before.plugin) && NameLess(before.plugin, d.plugin) {
      NameLessTransitive(last.plugin, before.plugin, d.plugin);
    }
  }

  lemma {:induction false} ActiveExact(all: seq<GateDecision>, ds: seq<GateDecision>)
    ensures forall d :: d in Active(all, ds) <==> d in ds && !Suppressed(all, d)
    decreases |ds|
  {
    if ds != [] {
      ActiveExact(all, ds[..|ds| - 1]);
      forall d ensures d in ds <==> d in ds[..|ds| - 1] || d == ds[|ds| - 1] {}
    }
  }

  lemma {:induction false} NonEmptyExact(ds: seq<GateDecision>)
    ensures forall d :: d in NonEmpty(ds) <==> d in ds && d.allow != {}
    decreases |ds|
  {
    if ds != [] {
      NonEmptyExact(ds[..|ds| - 1]);
      forall d ensures d in ds <==> d in ds[..|ds| - 1] || d == ds[|ds| - 1] {}
    }
  }

  predicate AllowedByAll(ds: seq<GateDecision>, name: string) {
    forall d :: d in ds ==> name in d.allow
  }

  lemma {:induction false} IntersectionExact(ds: seq<GateDecision>)
    requires ds != []
    ensures forall x :: x in Intersection(ds) <==> AllowedByAll(ds, x)
    decreases |ds|
  {
    if |ds| > 1 {
      IntersectionExact(ds[..|ds| - 1]);
      forall d ensures d in ds <==> d in ds[..|ds| - 1] || d == ds[|ds| - 1] {}
    }
  }

  /** Some decision of highest priority exists. */
  lemma {:induction false} TopPriority(ds: seq<GateDecision>) returns (top: GateDecision)
    requires ds != []
    ensures top in ds && forall d :: d in ds ==> d.priority <= top.priority
    decreases |ds|
  {
    top := ds[|ds| - 1];
    if |ds| > 1 {
      var before := TopPriority(ds[..|ds| - 1]);
      top := if before.priority > top.priority then before else top;
      forall d | d in ds ensures d.priority <= top.priority {
        assert d in ds[..|ds| - 1] || d == ds[|ds| - 1];
      }
    }
  }

  // ----- what counts, declaratively

  /** A decision counts unless it is advisory and some suppressing decision has a higher priority. */
  ghost predicate Speaks(ds: seq<GateDecision>, d: GateDecision) {
    d in ds && !(d.gateClass.Advisory? && exists s :: s in ds && s.suppresses && d.priority < s.priority)
  }

  /** The names come in code-point order: the first one ends, or differs by a smaller character, first. */
  ghost predicate Before(a: string, b: string) {
    exists k: nat :: k <= |a| && k < |b| && a[..k] == b[..k] && (k == |a| || a[k] < b[k])
  }

  /** The higher priority, among equals the smaller set, among equals the name that comes first. */
  ghost predicate Beats(a: GateDecision, b: GateDecision) {
    if a.priority != b.priority then a.priority > b.priority
    else if |a.allow| != |b.allow| then |a.allow| < |b.allow|
    else Before(a.plugin, b.plugin)
  }

  lemma {:induction false} NameLessExactly(a: string, b: string)
    ensures NameLess(a, b) <==> Before(a, b)
  {
    if a != [] && b != [] && a[0] == b[0] {
      NameLessExactly(a[1..], b[1..]);
      if Before(a[1..], b[1..]) {
        var k: nat :| k <= |a[1..]| && k < |b[1..]| && a[1..][..k] == b[1..][..k]
          && (k == |a[1..]| || a[1..][k] < b[1..][k]);
        assert a[..k + 1] == [a[0]] + a[1..][..k] && b[..k + 1] == [b[0]] + b[1..][..k];
      }
      if Before(a, b) {
        var k: nat :| k <= |a| && k < |b| && a[..k] == b[..k] && (k == |a| || a[k] < b[k]);
        BeforeTail(a, b, k);
      }
    } else if NameLess(a, b) {
      assert a[..0] == b[..0];
    } else if Before(a, b) {
      BeforeHead(a, b);
    }
  }

  lemma BeforeHead(a: string, b: string)
    requires Before(a, b)
    ensures b != [] && (a == [] || a[0] <= b[0])
  {
    var k: nat :| k <= |a| && k < |b| && a[..k] == b[..k] && (k == |a| || a[k] < b[k]);
    if k > 0 {
      assert a[..k][0] == a[0] && b[..k][0] == b[0];
    }
  }

  lemma BeforeTail(a: string, b: string, k: nat)
    requires a != [] && b != [] && a[0] == b[0] && k <= |a| && k < |b| && a[..k] == b[..k] && (k == |a| || a[k] < b[k])
    ensures Before(a[1..], b[1..])
  {
    assert k > 0;
    assert a[1..][..k - 1] == a[..k][1..] && b[1..][..k - 1] == b[..k][1..];
  }

  lemma OutranksExactly(a: GateDecision, b: GateDecision)
    ensures Outranks(a, b) <==> Beats(a, b)
  {
    NameLessExactly(a.plugin, b.plugin);
  }

  lemma ActiveSpeak(ds: seq<GateDecision>)
    ensures forall d :: d in Active(ds, ds) <==> Speaks(ds, d)
  {
    ActiveExact(ds, ds);
  }

  /** Suppression never silences every gate. */
  lemma SuppressionLeavesSome(ds: seq<GateDecision>)
    requires ds != []
    ensures exists d :: Speaks(ds, d)
  {
    var top := TopPriority(ds);
    assert Speaks(ds, top);
  }

  lemma {:induction false} ActiveAppend(all: seq<GateDecision>, a: seq<GateDecision>, b: seq<GateDecision>)
    ensures Active(all, a + b) == Active(all, a) + Active(all, b)
    decreases |b|
  {
    if b == [] {
      NothingAdded(a);
      NothingAdded(Active(all, a));
    } else {
      ActiveAppend(all, a, b[..|b| - 1]);
      assert (a + b)[..|a + b| - 1] == a + b[..|b| - 1];
    }
  }

  lemma {:induction false} ActiveAlike(x: seq<GateDecision>, y: seq<GateDecision>, ds: seq<GateDecision>)
    requires forall d :: d in ds ==> Suppressed(x, d) == Suppressed(y, d)
    ensures Active(x, ds) == Active(y, ds)
    decreases |ds|
  {
    hide Suppressed;
    if ds != [] {
      ActiveAlike(x, y, ds[..|ds| - 1]);
    }
  }

  lemma InOthers(ds: seq<GateDecision>, k: nat, d: GateDecision)
    requires k < |ds|
    ensures d in ds[..k] + ds[k + 1..] ==> d in ds
    ensures d in ds ==> d == ds[k] || d in ds[..k] + ds[k + 1..]
  {
    assert ds == ds[..k] + [ds[k]] + ds[k + 1..];
  }

  /** Whoever is silenced by a silenced decision is silenced by the one that silences it. */
  lemma SilencedStaySilenced(ds: seq<GateDecision>, k: nat, d: GateDecision)
    requires k < |ds| && !Speaks(ds, ds[k])
    ensures Suppressed(ds, d) == Suppressed(ds[..k] + ds[k + 1..], d)
  {
    var others := ds[..k] + ds[k + 1..];
    var top :| top in ds && top.suppresses && ds[k].priority < top.priority;
    InOthers(ds, k, top);
    forall s ensures s in others ==> s in ds
             ensures s in ds ==> s == ds[k] || s in others
    {
      InOthers(ds, k, s);
    }
  }

  lemma SameActiveSameAllowlist(x: seq<GateDecision>, y: seq<GateDecision>)
    ensures Active(x, x) == Active(y, y) ==> Compose(x) == Compose(y)
  {
    hide Active, Intersection, NonEmpty, Best;
  }

  /** What is silenced might as well not have been said. */
  lemma SilencedDoNotMatter(ds: seq<GateDecision>, k: nat)
    requires k < |ds| && !Speaks(ds, ds[k])
    ensures Compose(ds[..k] + ds[k + 1..]) == Compose(ds)
  {
    var others, before, behind := ds[..k] + ds[k + 1..], ds[..k], ds[k + 1..];
    assert Suppressed(ds, ds[k]);
    forall d ensures Suppressed(ds, d) == Suppressed(others, d) {
      SilencedStaySilenced(ds, k, d);
    }
    ActiveAlike(ds, others, others);
    assert Active(ds, [ds[k]]) == [] by { assert [ds[k]][..0] == []; }
    SameActiveSameAllowlist(ds, others);
    hide Suppressed, Speaks, Active, Compose;
    ActiveAppend(ds, before, behind);
    ActiveAppend(ds, before, [ds[k]]);
    ActiveAppend(ds, before + [ds[k]], behind);
    NothingAdded(Active(ds, before));
    assert before + [ds[k]] + behind == ds;
  }

  /** Decision k speaks and allows something. */
  ghost predicate Offers(ds: seq<GateDecision>, k: nat) {
    k < |ds| && Speaks(ds, ds[k]) && ds[k].allow != {}
  }

  /** Of the first n decisions that offer something, the k-th is beaten by none and beats all behind it. */
  ghost predicate Wins(ds: seq<GateDecision>, n: nat, k: nat) {
    && k < n && Offers(ds, k)
    && (forall j: nat :: j < k && Offers(ds, j) ==> !Beats(ds[j], ds[k]))
    && (forall j: nat :: k < j < n && Offers(ds, j) ==> Beats(ds[k], ds[j]))
  }

  lemma OfferedNext(ds: seq<GateDecision>, n: nat)
    requires n < |ds|
    ensures NonEmpty(Active(ds, ds[..n + 1])) == NonEmpty(Active(ds, ds[..n])) + (if Offers(ds, n) then [ds[n]] else [])
  {
    var before := Active(ds, ds[..n]);
    assert ds[..n + 1][..n] == ds[..n];
    assert Speaks(ds, ds[n]) <==> !Suppressed(ds, ds[n]);
    NothingAdded(before);
    NothingAdded(NonEmpty(before));
    assert (before + [ds[n]])[..|before|] == before;
  }

  lemma WinnerStays(ds: seq<GateDecision>, m: nat, k: nat)
    requires m < |ds| && Wins(ds, m, k) && (Offers(ds, m) ==> Beats(ds[k], ds[m]))
    ensures Wins(ds, m + 1, k)
  {
    hide Offers, Beats;
  }

  lemma NewWinner(ds: seq<GateDecision>, m: nat)
    requires m < |ds| && Offers(ds, m)
    requires (forall j: nat :: j < m ==> !Offers(ds, j)) || (exists k: nat :: Wins(ds, m, k) && !Beats(ds[k], ds[m]))
    ensures Wins(ds, m + 1, m)
  {
    hide Offers, Beats;
    if exists k: nat :: Wins(ds, m, k) && !Beats(ds[k], ds[m]) {
      var k: nat :| Wins(ds, m, k) && !Beats(ds[k], ds[m]);
      forall j: nat | j < m && Offers(ds, j) ensures !Beats(ds[j], ds[m]) {
        WinnerReplaced(ds, m, k, j);
      }
    }
  }

  lemma BestNext(before: seq<GateDecision>, d: GateDecision)
    ensures Best(before + [d]) == if before != [] && Beats(Best(before), d) then Best(before) else d
  {
    assert (before + [d])[..|before|] == before;
    if before != [] {
      OutranksExactly(Best(before), d);
    }
    hide Beats, Outranks;
  }

  lemma {:induction false} BestWins(ds: seq<GateDecision>, n: nat)
    requires n <= |ds| && NonEmpty(Active(ds, ds[..n])) != []
    ensures exists k: nat :: Wins(ds, n, k) && Best(NonEmpty(Active(ds, ds[..n]))) == ds[k]
    decreases n
  {
    assert n > 0 by { assert ds[..0] == []; }
    var m := n - 1;
    OfferedNext(ds, m);
    var before := NonEmpty(Active(ds, ds[..m]));
    NothingAdded(before);
    hide *;
    BestNext(before, ds[m]);
    if before == [] {
      NoneOffered(ds, m);
      NewWinner(ds, m);
    } else {
      BestWins(ds, m);
      var k: nat :| Wins(ds, m, k) && Best(before) == ds[k];
      if Offers(ds, m) && !Beats(ds[k], ds[m]) {
        NewWinner(ds, m);
      } else {
        WinnerStays(ds, m, k);
      }
    }
  }

  lemma {:induction false} NoneOffered(ds: seq<GateDecision>, n: nat)
    requires n <= |ds| && NonEmpty(Active(ds, ds[..n])) == []
    ensures forall j: nat :: j < n ==> !Offers(ds, j)
    decreases n
  {
    if n > 0 {
      OfferedNext(ds, n - 1);
      hide Offers, NonEmpty, Active;
      NoneOffered(ds, n - 1);
    }
  }

  lemma WinnerReplaced(ds: seq<GateDecision>, m: nat, k: nat, j: nat)
    requires m < |ds| && Wins(ds, m, k) && !Beats(ds[k], ds[m]) && j < m && Offers(ds, j)
    ensures !Beats(ds[j], ds[m])
  {
    OutranksExactly(ds[j], ds[m]);
    OutranksExactly(ds[k], ds[m]);
    OutranksExactly(ds[j], ds[k]);
    OutranksExactly(ds[k], ds[j]);
    hide Beats, Offers;
    NameLessTotal(ds[j].plugin, ds[k].plugin);
    if j > k {
      NotBoth(ds[k], ds[j]);
    } else if j == k {
      NotBoth(ds[k], ds[k]);
    }
    MaximalThroughTie(ds[j], ds[k], ds[m]);
  }

  lemma NotBoth(a: GateDecision, b: GateDecision)
    ensures !(Outranks(a, b) && Outranks(b, a))
  {
    NameLessTotal(a.plugin, b.plugin);
  }

  // ----- the composition

  /** Every decision that counts allows the name. */
  ghost predicate AllowedByEach(ds: seq<GateDecision>, name: string) {
    forall d :: Speaks(ds, d) ==> name in d.allow
  }

  /**
   A composed allowlist is never empty. It is exactly the names that every decision that counts
   allows, when there are any; otherwise it is the set of the one that wins among those that allow
   anything; and there is no allowlist only when no gate spoke or every one that counts allowed
   nothing.
   */
  lemma ComposeExact(ds: seq<GateDecision>)
    ensures Compose(ds).Some? ==> Compose(ds).value != {}
    ensures Compose(ds).None? <==> forall d :: Speaks(ds, d) ==> d.allow == {}
    ensures Compose(ds).Some? && (exists x :: AllowedByEach(ds, x)) ==>
              forall x :: x in Compose(ds).value <==> AllowedByEach(ds, x)
    ensures Compose(ds).Some? && (forall x :: !AllowedByEach(ds, x)) ==>
              exists k: nat :: Wins(ds, |ds|, k) && Compose(ds).value == ds[k].allow
  {
    var active := Active(ds, ds);
    ActiveSpeak(ds);
    NonEmptyExact(active);
    assert ds[..|ds|] == ds;
    hide Speaks, Active, NonEmpty;
    if active != [] {
      assert active[0] in active;
      IntersectionExact(active);
      forall x ensures AllowedByAll(active, x) <==> AllowedByEach(ds, x) {}
      if Intersection(active) != {} {
        var x :| x in Intersection(active);
        assert AllowedByEach(ds, x) && x in active[0].allow;
      } else if NonEmpty(active) != [] {
        BestIsMaximal(NonEmpty(active));
        var best := Best(NonEmpty(active));
        assert best in active && best.allow != {};
        forall x ensures !AllowedByEach(ds, x) {
          assert x !in Intersection(active);
        }
        BestWins(ds, |ds|);
      } else {
        forall d | d in active ensures d.allow == {} {
          assert d !in NonEmpty(active);
        }
        forall x ensures !AllowedByEach(ds, x) {
          assert x !in Intersection(active);
        }
      }
    }
  }

  /**
   The decisions are those of the gates that answer, in the order the gates are registered in, each
   with its gate's own name, priority and class.
   */
  lemma {:induction false} DecisionsInOrder(gates: seq<ToolGate>, view: GateView) returns (places: seq<nat>)
    ensures Increasing(places) && |places| == |Decisions(gates, view)|
    ensures forall k :: 0 <= k < |places| ==>
              places[k] < |gates| && DecisionOf(gates[places[k]], view, Decisions(gates, view)[k])
    ensures forall p: nat :: p < |gates| && gates[p].allowlist(view).Some? ==> p in places
    decreases |gates|
  {
    if gates == [] {
      places := [];
    } else {
      var last := |gates| - 1;
      places := DecisionsInOrder(gates[..last], view);
      LastDecides(gates, view);
      hide DecisionOf, Decisions;
      if gates[last].allowlist(view).Some? {
        places := places + [last];
      }
    }
  }

  /** What a gate that answers decides. */
  predicate DecisionOf(gate: ToolGate, view: GateView, d: GateDecision) {
    && gate.allowlist(view).Some?
    && d == GateDecision(gate.name, gate.priority, gate.gateClass, gate.suppressesAdvisory(view),
                         gate.allowlist(view).value)
  }

  lemma LastDecides(gates: seq<ToolGate>, view: GateView)
    requires gates != []
    ensures var last, before := gates[|gates| - 1], Decisions(gates[..|gates| - 1], view);
            if last.allowlist(view).None? then Decisions(gates, view) == before
            else
              && |Decisions(gates, view)| == |before| + 1 && Decisions(gates, view)[..|before|] == before
              && DecisionOf(last, view, Decisions(gates, view)[|before|])
  {
  }

  /** No two different decisions share a plugin name. */
  ghost predicate DistinctNames(ds: seq<GateDecision>) {
    forall a, b :: a in ds && b in ds && a.plugin == b.plugin ==> a == b
  }

  lemma SameMembersSameEmptiness(x: seq<GateDecision>, y: seq<GateDecision>)
    requires forall d :: d in x <==> d in y
    ensures x == [] <==> y == []
  {
    if x != [] { assert x[0] in y; }
    if y != [] { assert y[0] in x; }
  }

  /** The result depends on which gates decided what, not on the order they were registered in. */
  lemma ComposeIgnoresOrder(x: seq<GateDecision>, y: seq<GateDecision>)
    requires DistinctNames(x) && forall d :: d in x <==> d in y
    ensures Compose(x) == Compose(y)
  {
    var ax, ay := Active(x, x), Active(y, y);
    ActiveExact(x, x);
    ActiveExact(y, y);
    assert forall d :: d in ax <==> d in ay;
    SameMembersSameEmptiness(ax, ay);
    if ax != [] {
      IntersectionExact(ax);
      IntersectionExact(ay);
      assert forall x :: AllowedByAll(ax, x) <==> AllowedByAll(ay, x);
      assert Intersection(ax) == Intersection(ay);
      NonEmptyExact(ax);
      NonEmptyExact(ay);
      var nx, ny := NonEmpty(ax), NonEmpty(ay);
      assert forall d :: d in nx <==> d in ny;
      SameMembersSameEmptiness(nx, ny);
      if nx != [] {
        BestIsMaximal(nx);
        BestIsMaximal(ny);
        assert !Outranks(Best(nx), Best(ny)) && !Outranks(Best(ny), Best(nx));
        NameLessTotal(Best(nx).plugin, Best(ny).plugin);
      }
    }
  }

  lemma {:induction false} DecisionsExact(gates: seq<ToolGate>, view: GateView)
    ensures forall d :: d in Decisions(gates, view) <==> exists g :: g in gates && Decide(g, view) == Some(d)
    decreases |gates|
  {
    if gates != [] {
      DecisionsExact(gates[..|gates| - 1], view);
      var front, last := gates[..|gates| - 1], gates[|gates| - 1];
      forall d ensures d in Decisions(gates, view) <==> exists g :: g in gates && Decide(g, view) == Some(d) {
        if d in Decisions(gates, view) {
          if d in Decisions(front, view) {
            var g :| g in front && Decide(g, view) == Some(d);
            assert g in gates;
          } else {
            assert last in gates && Decide(last, view) == Some(d);
          }
        }
        if exists g :: g in gates && Decide(g, view) == Some(d) {
          var g :| g in gates && Decide(g, view) == Some(d);
          assert g in front || g == last;
        }
      }
    }
  }

  /** Registering the same gates in another order composes the same allowlist. */
  lemma AllowlistIgnoresRegistrationOrder(x: seq<ToolGate>, y: seq<ToolGate>, view: GateView)
    requires forall g :: g in x <==> g in y
    requires forall g, h :: g in x && h in x && g.name == h.name ==> Decide(g, view) == Decide(h, view)
    ensures Allowlist(x, view) == Allowlist(y, view)
  {
    DecisionsExact(x, view);
    DecisionsExact(y, view);
    var dx, dy := Decisions(x, view), Decisions(y, view);
    forall d ensures d in dx <==> d in dy {
      if d in dx {
        var g :| g in x && Decide(g, view) == Some(d);
        assert g in y;
      }
      if d in dy {
        var g :| g in y && Decide(g, view) == Some(d);
        assert g in x;
      }
    }
    forall a, b | a in dx && b in dx && a.plugin == b.plugin ensures a == b {
      var g :| g in x && Decide(g, view) == Some(a);
      var h :| h in x && Decide(h, view) == Some(b);
      assert g.name == h.name;
    }
    ComposeIgnoresOrder(dx, dy);
  }

  // ----- the loops of the program

  method SuppressionPriority(ds: seq<GateDecision>) returns (priority: Option<int>)
    ensures forall d :: d in ds ==>
              (d.gateClass.Advisory? && priority.Some? && d.priority < priority.value) == Suppressed(ds, d)
  {
    priority := None;
    for i := 0 to |ds|
      invariant priority.None? ==> forall k :: 0 <= k < i ==> !ds[k].suppresses
      invariant priority.Some? ==>
                  && (exists k :: 0 <= k < i && ds[k].suppresses && ds[k].priority == priority.value)
                  && (forall k :: 0 <= k < i && ds[k].suppresses ==> ds[k].priority <= priority.value)
    {
      if ds[i].suppresses && (priority.None? || priority.value <= ds[i].priority) {
        priority := Some(ds[i].priority);
      }
    }
    forall d | d in ds
      ensures (d.gateClass.Advisory? && priority.Some? && d.priority < priority.value) == Suppressed(ds, d)
    {
      if priority.Some? {
        var k :| 0 <= k < |ds| && ds[k].suppresses && ds[k].priority == priority.value;
        assert ds[k] in ds;
      }
    }
  }

  method ResolveEmptyIntersection(ds: seq<GateDecision>) returns (best: GateDecision)
    requires ds != []
    ensures best == Best(ds)
  {
    best := ds[0];
    assert ds[..1] == [ds[0]];
    for i := 1 to |ds|
      invariant best == Best(ds[..i])
    {
      assert ds[..i + 1][..i] == ds[..i];
      if !Outranks(best, ds[i]) {
        best := ds[i];
      }
    }
    assert ds[..|ds|] == ds;
  }

  method CollectDecisions(gates: seq<ToolGate>, view: GateView) returns (decisions: seq<GateDecision>)
    ensures decisions == Decisions(gates, view)
  {
    decisions := [];
    assert gates[..0] == [];
    for i := 0 to |gates|
      invariant decisions == Decisions(gates[..i], view)
    {
      assert gates[..i + 1][..i] == gates[..i];
      var gate := gates[i];
      var allow := gate.allowlist(view);
      if allow.Some? {
        decisions := decisions
          + [GateDecision(gate.name, gate.priority, gate.gateClass, gate.suppressesAdvisory(view), allow.value)];
      }
    }
    assert gates[..|gates|] == gates;
  }

  /** The decisions that are not suppressed, and the names all of them allow. */
  method IntersectActive(decisions: seq<GateDecision>)
    returns (active: seq<GateDecision>, combined: Option<set<string>>)
    ensures active == Active(decisions, decisions)
    ensures combined == if active == [] then None else Some(Intersection(active))
  {
    var suppression := SuppressionPriority(decisions);
    active, combined := [], None;
    assert decisions[..0] == [];
    for i := 0 to |decisions|
      invariant active == Active(decisions, decisions[..i])
      invariant combined == if active == [] then None else Some(Intersection(active))
    {
      var d := decisions[i];
      assert d in decisions;
      assert decisions[..i + 1][..i] == decisions[..i];
      if !(d.gateClass.Advisory? && suppression.Some? && d.priority < suppression.value) {
        assert (active + [d])[..|active|] == active;
        active := active + [d];
        combined := Some(if combined.Some? then combined.value * d.allow else d.allow);
      }
      hide Suppressed;
    }
    assert decisions[..|decisions|] == decisions;
  }

  method KeepNonEmpty(active: seq<GateDecision>) returns (nonEmpty: seq<GateDecision>)
    ensures nonEmpty == NonEmpty(active)
  {
    nonEmpty := [];
    assert active[..0] == [];
    for i := 0 to |active|
      invariant nonEmpty == NonEmpty(active[..i])
    {
      assert active[..i + 1][..i] == active[..i];
      if active[i].allow != {} {
        nonEmpty := nonEmpty + [active[i]];
      }
    }
    assert active[..|active|] == active;
  }

  method CollectToolAllowlist(gates: seq<ToolGate>, view: GateView) returns (allow: Option<set<string>>)
    ensures allow == Allowlist(gates, view)
  {
    if gates == [] {
      return None;
    }
    var decisions := CollectDecisions(gates, view);
    var active, combined := IntersectActive(decisions);
    if combined.Some? && combined.value == {} {
      var nonEmpty := KeepNonEmpty(active);
      if nonEmpty == [] {
        return None;
      }
      var best := ResolveEmptyIntersection(nonEmpty);
      NonEmptyExact(active);
      BestIsMaximal(nonEmpty);
      return if best.allow == {} then None else Some(best.allow);
    }
    return combined;
  }
}

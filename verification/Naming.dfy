/** Which wire id each call of a history gets (src/history.rs). */
module Naming {
  import opened Wrappers

  // ----- candidate ids

  const CANDIDATE_PREFIX := "clark_agent_call_"

  function Candidate(n: nat): string {
    CANDIDATE_PREFIX + Decimal(n)
  }

  predicate CandidateShaped(id: string) {
    CANDIDATE_PREFIX <= id
  }

  lemma CandidateInjective(m: nat, n: nat)
    ensures Candidate(m) == Candidate(n) <==> m == n
    ensures CandidateShaped(Candidate(m))
  {
    assert Candidate(m)[|CANDIDATE_PREFIX|..] == Decimal(m) && Candidate(n)[|CANDIDATE_PREFIX|..] == Decimal(n);
    if Candidate(m) == Candidate(n) {
      DecimalInjective(m, n);
    }
  }

  /** The least number at or after n whose candidate is free; it exists because the candidates are all different. */
  function FirstFree(reserved: set<string>, n: nat): nat
    decreases |reserved|
  {
    if Candidate(n) in reserved then FirstFree(reserved - {Candidate(n)}, n + 1) else n
  }

  lemma {:induction false} FirstFreeIsLeast(reserved: set<string>, n: nat)
    ensures FirstFree(reserved, n) >= n && Candidate(FirstFree(reserved, n)) !in reserved
    ensures forall k :: n <= k < FirstFree(reserved, n) ==> Candidate(k) in reserved
    decreases |reserved|
  {
    if Candidate(n) in reserved {
      var rest := reserved - {Candidate(n)};
      FirstFreeIsLeast(rest, n + 1);
      CandidateInjective(FirstFree(rest, n + 1), n);
    }
  }

  /** Only reserved candidates matter to the search. */
  lemma SameFirstFree(a: set<string>, b: set<string>, n: nat)
    requires forall k: nat :: Candidate(k) in a <==> Candidate(k) in b
    ensures FirstFree(a, n) == FirstFree(b, n)
  {
    FirstFreeIsLeast(a, n);
    FirstFreeIsLeast(b, n);
    if FirstFree(a, n) != FirstFree(b, n) {
      assert false;
    }
  }

  // ----- naming

  /**
   The ids that replacements must avoid, the wire ids given out, the next suffix to try, and the
   number of replacements.
   */
  datatype NamingState = NamingState(reserved: set<string>, used: set<string>, next: nat, renamed: nat)

  function WireOf(s: NamingState, id: string): string {
    if id in s.used then Candidate(FirstFree(s.reserved, s.next)) else id
  }

  function Assign(s: NamingState, id: string): NamingState {
    if id in s.used then
      var n := FirstFree(s.reserved, s.next);
      NamingState(s.reserved + {Candidate(n)}, s.used + {Candidate(n)}, n + 1, s.renamed + 1)
    else s.(used := s.used + {id})
  }

  function Named(s: NamingState, ids: seq<string>): NamingState {
    if ids == [] then s else Assign(Named(s, ids[..|ids| - 1]), ids[|ids| - 1])
  }

  function Wires(s: NamingState, ids: seq<string>): (r: seq<string>)
    ensures |r| == |ids|
  {
    if ids == [] then []
    else Wires(s, ids[..|ids| - 1]) + [WireOf(Named(s, ids[..|ids| - 1]), ids[|ids| - 1])]
  }

  lemma NamedSnoc(s: NamingState, ids: seq<string>, id: string)
    ensures Named(s, ids + [id]) == Assign(Named(s, ids), id)
    ensures Wires(s, ids + [id]) == Wires(s, ids) + [WireOf(Named(s, ids), id)]
  {
    assert (ids + [id])[..|ids|] == ids;
  }

  lemma {:induction false} NamedAppend(s: NamingState, a: seq<string>, b: seq<string>)
    ensures Named(s, a + b) == Named(Named(s, a), b)
    ensures Wires(s, a + b) == Wires(s, a) + Wires(Named(s, a), b)
    decreases |b|
  {
    hide WireOf, Assign;
    if b == [] {
      NothingAdded(a);
      NothingAdded(Wires(s, a));
    } else {
      var front, last := b[..|b| - 1], b[|b| - 1];
      NamedAppend(s, a, front);
      NamedSnoc(s, a + front, last);
      NamedSnoc(Named(s, a), front, last);
      hide *;
      SplitLast(b);
      OneMore(a, front, last);
      OneMore(Wires(s, a), Wires(Named(s, a), front), WireOf(Named(s, a + front), last));
    }
  }

  function IdSet(ids: seq<string>): set<string> {
    if ids == [] then {} else IdSet(ids[..|ids| - 1]) + {ids[|ids| - 1]}
  }

  lemma {:induction false} InIdSet(ids: seq<string>, id: string)
    ensures id in IdSet(ids) <==> id in ids
    decreases |ids|
  {
    if ids != [] {
      InIdSet(ids[..|ids| - 1], id);
      SplitLast(ids);
      assert id in ids <==> id in ids[..|ids| - 1] || id == ids[|ids| - 1] by {
        assert ids[..|ids| - 1] + [ids[|ids| - 1]] == ids;
      }
    }
  }

  /** A first naming: nothing given out yet, and every id of the transcript reserved. */
  predicate Initial(s: NamingState, ids: seq<string>) {
    s.used == {} && s.next == 1 && s.renamed == 0 && IdSet(ids) <= s.reserved
  }

  predicate AllTried(s: NamingState) {
    s.next >= 1 && forall k :: 1 <= k < s.next ==> Candidate(k) in s.reserved
  }

  /** The replacements given out so far. */
  function Minted(s0: NamingState, s: NamingState): set<string> {
    s.reserved - s0.reserved
  }

  predicate MintedShaped(minted: set<string>) {
    forall id :: id in minted ==> CandidateShaped(id)
  }

  predicate Counted(s0: NamingState, s: NamingState, ids: set<string>, given: nat) {
    && s0.reserved <= s.reserved
    && s.used == ids + Minted(s0, s)
    && |s.used| == given
    && |s.reserved| == |s0.reserved| + s.renamed
    && |ids| + s.renamed == given
  }

  ghost predicate NamingInv(s0: NamingState, ids: seq<string>, s: NamingState) {
    Counted(s0, s, IdSet(ids), |ids|) && AllTried(s) && MintedShaped(Minted(s0, s))
  }

  lemma AssignKeepsTried(s: NamingState, id: string)
    requires AllTried(s)
    ensures AllTried(Assign(s, id))
  {
    FirstFreeIsLeast(s.reserved, s.next);
  }

  lemma FreshFree(s: NamingState)
    ensures var wire := Candidate(FirstFree(s.reserved, s.next)); wire !in s.reserved && CandidateShaped(wire)
  {
    FirstFreeIsLeast(s.reserved, s.next);
    CandidateInjective(FirstFree(s.reserved, s.next), 0);
  }

  lemma IdSetSnoc(ids: seq<string>, id: string)
    ensures IdSet(ids + [id]) == IdSet(ids) + {id}
    ensures id in IdSet(ids) <==> id in ids
  {
    assert (ids + [id])[..|ids|] == ids;
    InIdSet(ids, id);
  }

  lemma UsedAreReserved(s0: NamingState, s: NamingState, ids: set<string>, given: nat, id: string)
    requires Counted(s0, s, ids, given) && ids <= s0.reserved
    ensures s.used <= s.reserved
    ensures id in s0.reserved ==> (id in s.used <==> id in ids)
  {
  }

  lemma OneBigger<T>(s: set<T>, x: T)
    requires x !in s
    ensures |s + {x}| == |s| + 1
  {
  }

  /** Giving out a wire id that is new everywhere keeps the counts. */
  lemma CountsRepeated(s0: NamingState, s: NamingState, ids: set<string>, given: nat, id: string, wire: string)
    requires Counted(s0, s, ids, given) && id in s0.reserved && ids <= s0.reserved
    requires id in s.used && wire !in s.reserved
    ensures wire !in s.used && id in ids
    ensures var t := NamingState(s.reserved + {wire}, s.used + {wire}, s.next, s.renamed + 1);
            Counted(s0, t, ids + {id}, given + 1) && Minted(s0, t) == Minted(s0, s) + {wire}
  {
    UsedAreReserved(s0, s, ids, given, id);
    assert ids + {id} == ids;
    assert (s.reserved + {wire}) - s0.reserved == (s.reserved - s0.reserved) + {wire};
    OneBigger(s.used, wire);
    OneBigger(s.reserved, wire);
    assert s.used + {wire} == ids + (Minted(s0, s) + {wire});
  }

  /** Giving out an id met for the first time keeps the counts. */
  lemma CountsFirst(s0: NamingState, s: NamingState, ids: set<string>, given: nat, id: string)
    requires Counted(s0, s, ids, given) && id in s0.reserved && ids <= s0.reserved
    requires id !in s.used
    ensures id !in ids
    ensures Counted(s0, s.(used := s.used + {id}), ids + {id}, given + 1)
  {
    UsedAreReserved(s0, s, ids, given, id);
    OneBigger(s.used, id);
    OneBigger(ids, id);
    assert s.used + {id} == (ids + {id}) + Minted(s0, s);
  }

  lemma AssignKeeps(s0: NamingState, ids: seq<string>, s: NamingState, id: string)
    requires NamingInv(s0, ids, s) && id in s0.reserved && IdSet(ids) <= s0.reserved
    ensures NamingInv(s0, ids + [id], Assign(s, id))
    ensures WireOf(s, id) !in s.used && WireOf(s, id) in Assign(s, id).used && s.used <= Assign(s, id).used
    ensures if id in ids then WireOf(s, id) !in s0.reserved && CandidateShaped(WireOf(s, id)) else WireOf(s, id) == id
  {
    var t, wire := Assign(s, id), WireOf(s, id);
    IdSetSnoc(ids, id);
    AssignKeepsTried(s, id);
    FreshFree(s);
    if id in s.used {
      CountsRepeated(s0, s, IdSet(ids), |ids|, id, wire);
    } else {
      CountsFirst(s0, s, IdSet(ids), |ids|, id);
    }
    assert s0.reserved <= s.reserved;
    hide FirstFree, Candidate, CandidateShaped, AllTried, IdSet;
    var plain := t.(next := s.next);
    assert Counted(s0, t, IdSet(ids + [id]), |ids + [id]|) == Counted(s0, plain, IdSet(ids) + {id}, |ids| + 1);
    assert Minted(s0, t) == Minted(s0, plain);
    hide Counted, Minted;
  }

  lemma {:induction false} NamingLaws(s0: NamingState, ids: seq<string>)
    requires Initial(s0, ids)
    ensures NamingInv(s0, ids, Named(s0, ids))
    decreases |ids|
  {
    if ids == [] {
      assert Minted(s0, s0) == {};
    } else {
      var front, last := ids[..|ids| - 1], ids[|ids| - 1];
      SplitLast(ids);
      assert IdSet(ids) == IdSet(front) + {last};
      NamingLaws(s0, front);
      NamedSnoc(s0, front, last);
      hide NamingInv, Named, Assign;
      AssignKeeps(s0, front, Named(s0, front), last);
    }
  }

  /** The search never runs past the ids there are: every suffix tried is reserved by now. */
  lemma {:induction false} CandidatesFit(reserved: set<string>, n: nat)
    requires forall k :: 1 <= k <= n ==> Candidate(k) in reserved
    ensures n <= |reserved|
    decreases n
  {
    if n > 0 {
      var rest := reserved - {Candidate(n)};
      forall k | 1 <= k <= n - 1 ensures Candidate(k) in rest {
        CandidateInjective(k, n);
      }
      CandidatesFit(rest, n - 1);
    }
  }

  lemma SuffixBound(s0: NamingState, ids: seq<string>)
    requires Initial(s0, ids)
    ensures var s := Named(s0, ids); s.next - 1 <= s.renamed + |s0.reserved| && s.renamed == |ids| - |IdSet(ids)|
  {
    NamingLaws(s0, ids);
    var s := Named(s0, ids);
    CandidatesFit(s.reserved, s.next - 1);
  }

  /** What the naming knows after the last id. */
  lemma LastStep(s0: NamingState, ids: seq<string>)
    requires Initial(s0, ids) && ids != []
    ensures var front, wire := ids[..|ids| - 1], Wires(s0, ids)[|ids| - 1];
            && Initial(s0, front) && Wires(s0, ids) == Wires(s0, front) + [wire]
            && Named(s0, front).used <= Named(s0, ids).used && wire !in Named(s0, front).used
            && wire in Named(s0, ids).used
            && (if ids[|ids| - 1] in front then wire !in s0.reserved && CandidateShaped(wire)
                else wire == ids[|ids| - 1])
  {
    var front, last := ids[..|ids| - 1], ids[|ids| - 1];
    SplitLast(ids);
    assert IdSet(ids) == IdSet(front) + {last};
    assert Initial(s0, front) && last in s0.reserved && IdSet(front) <= s0.reserved;
    hide IdSet, Initial, CandidateShaped, WireOf, Assign;
    NamingLaws(s0, front);
    NamedSnoc(s0, front, last);
    AssignKeeps(s0, front, Named(s0, front), last);
    hide NamingInv, Named, Wires;
  }

  /** The first call with an id keeps it; a repeated id gets a candidate that is not among the reserved ids. */
  lemma {:induction false} WireAt(s0: NamingState, ids: seq<string>, k: nat)
    requires Initial(s0, ids) && k < |ids|
    ensures Wires(s0, ids)[k] in Named(s0, ids).used
    ensures if ids[k] in ids[..k] then Wires(s0, ids)[k] !in s0.reserved && CandidateShaped(Wires(s0, ids)[k])
            else Wires(s0, ids)[k] == ids[k]
    decreases |ids|
  {
    var front := ids[..|ids| - 1];
    LastStep(s0, ids);
    hide Initial, Named, Wires, CandidateShaped;
    if k < |ids| - 1 {
      WireAt(s0, front, k);
      assert front[..k] == ids[..k];
    }
  }

  lemma {:induction false} WiresDiffer(s0: NamingState, ids: seq<string>, i: nat, j: nat)
    requires Initial(s0, ids) && i < j < |ids|
    ensures Wires(s0, ids)[i] != Wires(s0, ids)[j]
    decreases |ids|
  {
    var front := ids[..|ids| - 1];
    LastStep(s0, ids);
    hide Initial, Named, Wires, CandidateShaped;
    if j < |ids| - 1 {
      WiresDiffer(s0, front, i, j);
    } else {
      WireAt(s0, front, i);
    }
  }

  /**
   All wire ids differ; first occurrences keep their id, and a repeated id gets a candidate that no
   reserved id equals.
   */
  lemma WireLaws(s0: NamingState, ids: seq<string>)
    requires Initial(s0, ids)
    ensures Distinct(Wires(s0, ids))
    ensures forall k :: 0 <= k < |ids| ==>
              if ids[k] in ids[..k] then Wires(s0, ids)[k] !in s0.reserved && CandidateShaped(Wires(s0, ids)[k])
              else Wires(s0, ids)[k] == ids[k]
  {
    hide Initial, Named, Wires, CandidateShaped;
    forall i, j | 0 <= i < j < |ids| ensures Wires(s0, ids)[i] != Wires(s0, ids)[j] {
      WiresDiffer(s0, ids, i, j);
    }
    forall k | 0 <= k < |ids|
      ensures if ids[k] in ids[..k] then Wires(s0, ids)[k] !in s0.reserved && CandidateShaped(Wires(s0, ids)[k])
              else Wires(s0, ids)[k] == ids[k]
    {
      WireAt(s0, ids, k);
    }
  }

  /** Every replacement given out is the wire id of some call. */
  lemma {:induction false} MintedAreWires(s0: NamingState, ids: seq<string>, id: string)
    requires s0.used == {} && id in Named(s0, ids).reserved && id !in s0.reserved
    ensures id in Wires(s0, ids)
    decreases |ids|
  {
    if ids != [] {
      var front := ids[..|ids| - 1];
      if id in Named(s0, front).reserved {
        MintedAreWires(s0, front, id);
      } else {
        assert Wires(s0, ids)[|ids| - 1] == id;
      }
    }
  }

  /** A candidate that the naming has no use for: the transcript holds it, or an earlier call got it. */
  predicate Taken(s0: NamingState, wires: seq<string>, m: nat) {
    Candidate(m) in s0.reserved || Candidate(m) in wires
  }

  /** The wire id of the last call, when its id is a repetition, has the least number not taken. */
  lemma LastReplacement(s0: NamingState, ids: seq<string>) returns (m: nat)
    requires Initial(s0, ids) && ids != [] && ids[|ids| - 1] in ids[..|ids| - 1]
    ensures m >= 1 && Wires(s0, ids)[|ids| - 1] == Candidate(m)
    ensures var earlier := Wires(s0, ids[..|ids| - 1]);
            !Taken(s0, earlier, m) && forall l :: 1 <= l < m ==> Taken(s0, earlier, l)
  {
    var front, last := ids[..|ids| - 1], ids[|ids| - 1];
    var s, earlier := Named(s0, front), Wires(s0, front);
    m := FirstFree(s.reserved, s.next);
    LastStep(s0, ids);
    NamingLaws(s0, front);
    FirstFreeIsLeast(s.reserved, s.next);
    InIdSet(front, last);
    assert s0.reserved <= s.reserved && last in s.used;
    if Candidate(m) in earlier {
      var k: nat :| k < |earlier| && earlier[k] == Candidate(m);
      WiresReserved(s0, front, k);
    }
    forall l | 1 <= l < m ensures Taken(s0, earlier, l) {
      assert Candidate(l) in s.reserved;
      if Candidate(l) !in s0.reserved {
        MintedAreWires(s0, front, Candidate(l));
      }
    }
  }

  lemma WiresReserved(s0: NamingState, ids: seq<string>, k: nat)
    requires Initial(s0, ids) && k < |ids|
    ensures Wires(s0, ids)[k] in Named(s0, ids).reserved
  {
    WireAt(s0, ids, k);
    NamingLaws(s0, ids);
    hide Named, Wires, CandidateShaped;
  }

  /** The wire ids of the first k ids do not depend on the ids behind them. */
  lemma WiresPrefix(s0: NamingState, ids: seq<string>, k: nat)
    requires k <= |ids|
    ensures Wires(s0, ids)[..k] == Wires(s0, ids[..k])
  {
    assert ids == ids[..k] + ids[k..];
    NamedAppend(s0, ids[..k], ids[k..]);
  }

  /** A repeated id gets the candidate with the least number that is not taken by then. */
  lemma ReplacementExact(s0: NamingState, ids: seq<string>, k: nat) returns (m: nat)
    requires Initial(s0, ids) && k < |ids| && ids[k] in ids[..k]
    ensures m >= 1 && Wires(s0, ids)[k] == Candidate(m)
    ensures var earlier := Wires(s0, ids)[..k];
            !Taken(s0, earlier, m) && forall l :: 1 <= l < m ==> Taken(s0, earlier, l)
  {
    var upTo := ids[..k + 1];
    assert upTo[..|upTo| - 1] == ids[..k];
    InitialPrefix(s0, ids, k + 1);
    hide Initial, Taken, Candidate;
    m := LastReplacement(s0, upTo);
    WiresPrefix(s0, ids, k);
    WiresPrefix(s0, ids, k + 1);
    assert Wires(s0, ids)[..k + 1][k] == Wires(s0, ids)[k];
  }

  lemma {:induction false} InitialPrefix(s0: NamingState, ids: seq<string>, k: nat)
    requires Initial(s0, ids) && k <= |ids|
    ensures Initial(s0, ids[..k])
    decreases |ids|
  {
    if k == |ids| {
      assert ids[..k] == ids;
    } else {
      InitialPrefix(s0, ids[..|ids| - 1], k);
      assert ids[..|ids| - 1][..k] == ids[..k];
    }
  }

  /** Distinct ids are all kept. */
  lemma {:induction false} DistinctKept(s0: NamingState, ids: seq<string>)
    requires Initial(s0, ids) && Distinct(ids)
    ensures Wires(s0, ids) == ids && Named(s0, ids).renamed == 0
  {
    WireLaws(s0, ids);
    SuffixBound(s0, ids);
    forall k | 0 <= k < |ids| ensures Wires(s0, ids)[k] == ids[k] {
      assert ids[k] !in ids[..k];
    }
    DistinctSize(ids);
  }

  lemma {:induction false} DistinctSize(ids: seq<string>)
    requires Distinct(ids)
    ensures |IdSet(ids)| == |ids|
    decreases |ids|
  {
    if ids != [] {
      var front := ids[..|ids| - 1];
      assert Distinct(front);
      DistinctSize(front);
      InIdSet(front, ids[|ids| - 1]);
    }
  }
}

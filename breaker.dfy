/** The breaker logic of a room, on values: the draws of the held appliances,
    the socket capacity, the budget, the latched trip flag and the forbidden
    mask. The room object's methods are specified by these functions. */
module Breaker {
  import opened Appliances

  /** The sum of a sequence of draws, accumulated front to back as
      `getCurrentConsumption` does. */
  function Total(d: seq<real>): real
  {
    if d == [] then 0.0 else Total(d[..|d| - 1]) + d[|d| - 1]
  }

  lemma {:induction false} TotalAppend(a: seq<real>, b: seq<real>)
    ensures Total(a + b) == Total(a) + Total(b)
    decreases |b|
  {
    if b != [] {
      assert (a + b)[..|a + b| - 1] == a + b[..|b| - 1];
      TotalAppend(a, b[..|b| - 1]);
    } else {
      assert a + b == a;
    }
  }

  /** Replacing one draw changes the total by exactly the difference. */
  lemma {:induction false} TotalUpdate(d: seq<real>, k: nat, v: real)
    requires k < |d|
    ensures Total(d[k := v]) == Total(d) - d[k] + v
    decreases |d|
  {
    var n := |d|;
    if k < n - 1 {
      assert d[k := v][..n - 1] == d[..n - 1][k := v];
      TotalUpdate(d[..n - 1], k, v);
    } else {
      assert d[k := v][..n - 1] == d[..n - 1];
    }
  }

  /** Removal by swap-with-last: the last element fills position `k` and the
      sequence loses its last place. */
  function SwapRemove<T>(s: seq<T>, k: nat): (r: seq<T>)
    requires k < |s|
    ensures |r| == |s| - 1
    ensures forall j :: 0 <= j < |r| && j != k ==> r[j] == s[j]
    ensures k < |r| ==> r[k] == s[|s| - 1]
  {
    s[k := s[|s| - 1]][..|s| - 1]
  }

  /** Swap-removal as a splice: the last element takes the place of `k`. */
  lemma SwapRemoveSplice<T>(s: seq<T>, k: nat)
    requires k < |s| - 1
    ensures SwapRemove(s, k) == s[..k] + [s[|s| - 1]] + s[k + 1..|s| - 1]
  {
  }

  /** Swap-removal loses exactly the element at `k`: the rest is a
      permutation of what remains. */
  lemma SwapRemoveLosesOne<T>(s: seq<T>, k: nat)
    requires k < |s|
    ensures multiset(SwapRemove(s, k)) == multiset(s) - multiset{s[k]}
  {
    var n := |s|;
    if k == n - 1 {
      assert s == SwapRemove(s, k) + [s[k]];
    } else {
      SwapRemoveSplice(s, k);
      var front, middle, last := s[..k], s[k + 1..n - 1], s[n - 1];
      assert s == front + [s[k]] + middle + [last];
      Reorder(front, s[k], middle, last);
    }
  }

  /** Multiset bookkeeping for the splice above. */
  lemma Reorder<T>(front: seq<T>, x: T, middle: seq<T>, last: T)
    ensures multiset(front + [last] + middle) ==
            multiset(front + [x] + middle + [last]) - multiset{x}
  {
  }

  /** No element occurs twice. */
  predicate Distinct<T(==)>(s: seq<T>)
  {
    forall i, j :: 0 <= i < j < |s| ==> s[i] != s[j]
  }

  /** Swap-removal keeps a sequence free of repetitions, the removed element
      is gone from it and nothing new appears. */
  lemma SwapRemoveDistinct<T>(s: seq<T>, k: nat)
    requires k < |s| && Distinct(s)
    ensures Distinct(SwapRemove(s, k)) && s[k] !in SwapRemove(s, k)
    ensures forall x | x in SwapRemove(s, k) :: x in s
  {
    var r := SwapRemove(s, k);
    forall i, j | 0 <= i < j < |r| ensures r[i] != r[j] {
      var i', j' := if i == k then |s| - 1 else i, if j == k then |s| - 1 else j;
      assert r[i] == s[i'] && r[j] == s[j'];
    }
    forall i | 0 <= i < |r| ensures r[i] != s[k] && r[i] in s {
      assert r[i] == s[if i == k then |s| - 1 else i];
    }
  }

  /** Removing one draw by swap-with-last lowers the total by that draw. */
  lemma TotalSwapRemove(d: seq<real>, k: nat)
    requires k < |d|
    ensures Total(SwapRemove(d, k)) == Total(d) - d[k]
  {
    var n := |d|;
    var e := d[k := d[n - 1]];
    TotalUpdate(d, k, d[n - 1]);
    assert Total(e) == Total(e[..n - 1]) + d[n - 1];
  }

  /** Whether `mask` forbids `kind`: the kind's bit is set. The `uint64_t`
      mask is modelled as the set of kinds whose bits are set; only the bits
      of the three kinds are ever touched. */
  predicate Forbids(mask: set<Kind>, kind: Kind)
  {
    kind in mask
  }

  /** `addForbidden`: set the kind's bit; the other kinds keep theirs. */
  function Forbid(mask: set<Kind>, kind: Kind): (r: set<Kind>)
    ensures forall k :: Forbids(r, k) <==> k == kind || Forbids(mask, k)
  {
    mask + {kind}
  }

  /** `clearForbidden`: clear the kind's bit; the other kinds keep theirs. */
  function Permit(mask: set<Kind>, kind: Kind): (r: set<Kind>)
    ensures forall k :: Forbids(r, k) <==> k != kind && Forbids(mask, k)
  {
    mask - {kind}
  }

  /** Permitting a kind undoes forbidding it, and the other way round. */
  lemma PermitUndoesForbid(mask: set<Kind>, kind: Kind)
    ensures !Forbids(mask, kind) ==> Permit(Forbid(mask, kind), kind) == mask
    ensures Forbids(mask, kind) ==> Forbid(Permit(mask, kind), kind) == mask
  {
  }

  /** A room's state as its breaker sees it: the draw of each held appliance,
      the number of sockets, the budget, the trip flag and the forbidden mask. */
  datatype RoomState = RoomState(draws: seq<real>, maxSockets: nat, maxPower: real,
                                 powerDown: bool, forbidden: set<Kind>)

  /** A new room (`Room(name, sockets, maxPower)` once the budget is accepted). */
  function Fresh(sockets: nat, maxPower: real): RoomState
  {
    RoomState([], sockets, maxPower, false, {})
  }

  /** What a room keeps true: no more appliances than sockets, a positive
      budget, and a tripped room has no sockets and holds nothing. */
  predicate Consistent(s: RoomState)
  {
    |s.draws| <= s.maxSockets && s.maxPower > 0.0 && (s.powerDown ==> s.maxSockets == 0)
  }

  /** `consumptionChanged`: if the total draw exceeds the budget (strictly),
      every appliance is removed, the capacity drops to zero and the trip
      flag latches. */
  function Check(s: RoomState): (r: RoomState)
    ensures Consistent(s) ==> Consistent(r)
    ensures s.powerDown ==> r.powerDown
    ensures !r.powerDown ==> Total(r.draws) <= r.maxPower
    ensures r.powerDown <==> s.powerDown || Total(s.draws) > s.maxPower
    ensures Total(s.draws) <= s.maxPower ==> r == s
    ensures r.maxPower == s.maxPower && r.forbidden == s.forbidden
  {
    if Total(s.draws) > s.maxPower then
      s.(draws := [], maxSockets := 0, powerDown := true)
    else
      s
  }

  /** The guard of `operator+=`: not tripped, a free socket, kind not forbidden. */
  predicate Accepts(s: RoomState, kind: Kind)
  {
    !s.powerDown && |s.draws| < s.maxSockets && !Forbids(s.forbidden, kind)
  }

  /** `operator+=` with the insertion skipped when the attach notification
      tripped the room. The notification runs the check BEFORE the newcomer
      (drawing `standby`) is inserted, so the newcomer's draw is not checked. */
  function Admit(s: RoomState, kind: Kind, standby: real): (r: RoomState)
    ensures Consistent(s) ==> Consistent(r)
    ensures !Accepts(s, kind) ==> r == s
    ensures s.powerDown ==> r == s
    ensures Accepts(s, kind) && !r.powerDown ==> r.draws == s.draws + [standby]
    ensures r.powerDown && !s.powerDown ==> r.draws == [] && Total(s.draws) > s.maxPower
    ensures Accepts(s, kind) ==> (r.powerDown <==> Total(s.draws) > s.maxPower)
    ensures r.maxPower == s.maxPower && r.forbidden == s.forbidden
    ensures r.powerDown || r.maxSockets == s.maxSockets
  {
    if !Accepts(s, kind) then s
    else
      var c := Check(s);
      if c.powerDown then c else c.(draws := c.draws + [standby])
  }

  /** `operator+=` as written: the clone is stored at index `socketCnt` after
      the attach notification even when that notification has just tripped
      the room. */
  function AdmitAsWritten(s: RoomState, kind: Kind, standby: real): (r: RoomState)
    ensures !Accepts(s, kind) ==> r == s
    ensures Accepts(s, kind) ==> r.draws == Check(s).draws + [standby]
  {
    if !Accepts(s, kind) then s
    else
      var c := Check(s);
      c.(draws := c.draws + [standby])
  }

  /** Once tripped, a consistent room stays as it is: admissions and checks
      change nothing, and it holds no appliance. */
  lemma TripIsFinal(s: RoomState, kind: Kind, standby: real)
    requires Consistent(s) && s.powerDown
    ensures s.draws == []
    ensures Admit(s, kind, standby) == s
    ensures Check(s) == s
  {
  }

  /** An accepted admission into a room within budget appends the
      newcomer's draw. */
  lemma AdmitWithinBudget(s: RoomState, kind: Kind, standby: real)
    requires Accepts(s, kind) && Total(s.draws) <= s.maxPower
    ensures Admit(s, kind, standby) == s.(draws := s.draws + [standby])
    ensures AdmitAsWritten(s, kind, standby) == s.(draws := s.draws + [standby])
  {
  }

  /** The totals of one, two and three standby TVs. */
  lemma StandbyTotals()
    ensures Total([0.05]) == 0.05
    ensures Total([0.05, 0.05]) == 0.1
    ensures Total([0.05, 0.05, 0.05]) > 0.1
  {
    assert [0.05][..0] == [];
    assert [0.05, 0.05][..1] == [0.05];
    assert [0.05, 0.05, 0.05][..2] == [0.05, 0.05];
  }

  /** Because the newcomer is inserted after the check, three TVs on standby
      (0.05 each) leave a room with a budget of 0.1 over budget but not tripped. */
  lemma AdmissionLeavesRoomOverBudget()
    ensures var s := Admit(Admit(Admit(Fresh(4, 0.1), TV, 0.05), TV, 0.05), TV, 0.05);
            Consistent(s) && !s.powerDown && Total(s.draws) > s.maxPower
  {
    StandbyTotals();
    var s0 := Fresh(4, 0.1);
    AdmitWithinBudget(s0, TV, 0.05);
    var s1 := RoomState([0.05], 4, 0.1, false, {});
    assert Admit(s0, TV, 0.05) == s1;
    AdmitWithinBudget(s1, TV, 0.05);
    var s2 := RoomState([0.05, 0.05], 4, 0.1, false, {});
    assert Admit(s1, TV, 0.05) == s2;
    AdmitWithinBudget(s2, TV, 0.05);
    var s3 := RoomState([0.05, 0.05, 0.05], 4, 0.1, false, {});
    assert Admit(s2, TV, 0.05) == s3;
  }

  /** The counterexample to storing the clone after the attach notification
      unconditionally: a fourth TV trips the room of the lemma
      above in its attach notification; as written the clone is then stored
      in a room with no sockets left, the corrected admission stores nothing. */
  lemma AdmitAsWrittenStoresIntoTrippedRoom()
    ensures var s := Admit(Admit(Admit(Fresh(4, 0.1), TV, 0.05), TV, 0.05), TV, 0.05);
            Consistent(s) && Accepts(s, TV) &&
            !Consistent(AdmitAsWritten(s, TV, 0.05)) &&
            AdmitAsWritten(s, TV, 0.05).powerDown &&
            |AdmitAsWritten(s, TV, 0.05).draws| == 1 &&
            Admit(s, TV, 0.05) == RoomState([], 0, 0.1, true, {})
  {
    AdmissionLeavesRoomOverBudget();
    var s3 := RoomState([0.05, 0.05, 0.05], 4, 0.1, false, {});
    assert Admit(Admit(Admit(Fresh(4, 0.1), TV, 0.05), TV, 0.05), TV, 0.05) == s3;
    var tripped := RoomState([], 0, 0.1, true, {});
    assert Check(s3) == tripped;
    assert AdmitAsWritten(s3, TV, 0.05) == tripped.(draws := [0.05]);
  }
}

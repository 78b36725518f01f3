/** The room: a bounded array of owned appliances, the forbidden kinds, and
    the breaker that empties the room for good once the total draw exceeds
    its budget. The room is the only power source, so it also carries the
    attach/detach protocol and routes every switch of an appliance it holds. */
module Rooms {
  import opened Wrappers
  import opened Appliances
  import opened Breaker

  /** Why a room's construction is refused (its `std::invalid_argument`). */
  datatype RoomFault = BadRoomPower

  /** The draws of a sequence of appliances, in order. */
  ghost function Draws(s: seq<Appliance>): (d: seq<real>)
    reads s
    ensures |d| == |s|
    ensures forall i {:trigger d[i]} :: 0 <= i < |s| ==> d[i] == s[i].Power()
  {
    if s == [] then [] else Draws(s[..|s| - 1]) + [s[|s| - 1].Power()]
  }

  /** Each draw is that of the appliance in the same place. */
  lemma {:induction false} DrawsAt(s: seq<Appliance>, i: nat)
    requires i < |s|
    ensures Draws(s)[i] == s[i].Power()
    decreases |s|
  {
    if i < |s| - 1 {
      assert s[..|s| - 1][i] == s[i];
      DrawsAt(s[..|s| - 1], i);
    }
  }

  lemma DrawsAppend(s: seq<Appliance>, a: Appliance)
    ensures Draws(s + [a]) == Draws(s) + [a.Power()]
  {
    assert (s + [a])[..|s|] == s;
  }

  /** One more appliance of a prefix adds its draw to the prefix's total. */
  lemma TotalDrawsStep(s: seq<Appliance>, i: nat)
    requires i < |s|
    ensures Total(Draws(s[..i + 1])) == Total(Draws(s[..i])) + s[i].Power()
  {
    assert s[..i + 1] == s[..i] + [s[i]];
    DrawsAppend(s[..i], s[i]);
    assert (Draws(s[..i]) + [s[i].Power()])[..i] == Draws(s[..i]);
  }

  /** Swap-removal commutes with taking the draws. */
  lemma DrawsSwapRemove(s: seq<Appliance>, k: nat)
    requires k < |s|
    ensures Draws(SwapRemove(s, k)) == SwapRemove(Draws(s), k)
  {
    var r := SwapRemove(s, k);
    forall j | 0 <= j < |r|
      ensures Draws(r)[j] == SwapRemove(Draws(s), k)[j]
    {
      DrawsAt(r, j);
      if j == k {
        DrawsAt(s, |s| - 1);
      } else {
        DrawsAt(s, j);
      }
    }
  }

  /** The position of the first appliance whose serial number is `sn`, or
      `|s|` when there is none or `sn` is null. */
  function Match(s: seq<Appliance>, sn: Option<string>): (k: nat)
    ensures k <= |s|
    ensures k < |s| ==> sn == Some(s[k].serial)
    ensures forall j :: 0 <= j < k ==> sn != Some(s[j].serial)
  {
    if sn.None? || s == [] then |s|
    else if s[0].serial == sn.value then 0
    else 1 + Match(s[1..], sn)
  }

  class Room {
    /** The socket array; null once the room has tripped. */
    var sockets: array?<Appliance?>
    var socketCnt: nat
    var maxSockets: nat
    const maxPower: real
    /** The latched trip flag. */
    var powerDown: bool
    var forbidden: set<Kind>
    /** The appliances held, in socket order: `sockets[..socketCnt]`. */
    ghost var Held: seq<Appliance>

    ghost predicate Valid()
      reads this, sockets, Held
    {
      maxPower > 0.0 &&
      socketCnt == |Held| <= maxSockets &&
      (powerDown ==> maxSockets == 0) &&
      (sockets == null ==> maxSockets == 0) &&
      (sockets != null ==>
         sockets.Length == maxSockets && sockets[..socketCnt] == Held) &&
      (forall a | a in Held :: a.Valid() && a.attached) &&
      Distinct(Held)
    }

    /** The room as its breaker sees it. */
    ghost function State(): RoomState
      reads this, Held
    {
      RoomState(Draws(Held), maxSockets, maxPower, powerDown, forbidden)
    }

    /** `Room(name, sockets, maxPower)` once the budget has been accepted. */
    constructor (capacity: nat, maxPower: real)
      requires maxPower > 0.0
      ensures Valid() && fresh(sockets)
      ensures Held == [] && State() == Fresh(capacity, maxPower)
    {
      sockets := new Appliance?[capacity];
      socketCnt := 0;
      maxSockets := capacity;
      this.maxPower := maxPower;
      powerDown := false;
      forbidden := {};
      Held := [];
    }

    /** `addForbidden`: admissions of the kind are refused from now on; the
        appliances already held stay. */
    method AddForbidden(kind: Kind)
      requires Valid()
      modifies this`forbidden
      ensures Valid() && Held == old(Held)
      ensures State() == old(State()).(forbidden := Forbid(old(forbidden), kind))
    {
      forbidden := Forbid(forbidden, kind);
    }

    /** `clearForbidden`: admissions of the kind are allowed again. */
    method ClearForbidden(kind: Kind)
      requires Valid()
      modifies this`forbidden
      ensures Valid() && Held == old(Held)
      ensures State() == old(State()).(forbidden := Permit(old(forbidden), kind))
    {
      forbidden := Permit(forbidden, kind);
    }

    /** `getCurrentConsumption`: the sum of the held appliances' draws. */
    method CurrentConsumption() returns (total: real)
      requires Valid()
      ensures total == Total(Draws(Held))
    {
      total := 0.0;
      var i := 0;
      while i < socketCnt
        invariant i <= socketCnt
        invariant total == Total(Draws(Held[..i]))
      {
        TotalDrawsStep(Held, i);
        total := total + sockets[i].Power();
        i := i + 1;
      }
      assert Held[..i] == Held;
    }

    /** `removeAllAppliances`: every appliance is dropped, the socket array
        is released and the capacity goes to zero. */
    method RemoveAllAppliances()
      requires Valid()
      modifies this
      ensures Valid()
      ensures Held == [] && sockets == null && socketCnt == 0 && maxSockets == 0
      ensures powerDown == old(powerDown) && forbidden == old(forbidden)
    {
      sockets := null;
      socketCnt := 0;
      maxSockets := 0;
      Held := [];
    }

    /** `consumptionChanged`: trips the room when the total draw exceeds the
        budget. */
    method ConsumptionChanged()
      requires Valid()
      modifies this
      ensures Valid()
      ensures State() == Check(old(State()))
      ensures if Total(old(Draws(Held))) > maxPower
              then powerDown && Held == [] && sockets == null && socketCnt == 0
              else unchanged(this)
    {
      ghost var before := State();
      var power := CurrentConsumption();
      assert power == Total(before.draws);
      if power > maxPower {
        RemoveAllAppliances();
        powerDown := true;
        assert State() == Check(before) by {
          assert Draws(Held) == [];
        }
      } else {
        assert State() == before == Check(before);
      }
    }

    /** `PowerSource::setSource`: attaches `app` to the room and notifies it.
        Attaching an attached appliance is the protocol error and changes
        nothing. */
    method SetSource(app: Appliance) returns (ok: bool)
      requires Valid() && app.Valid()
      modifies this, app`attached
      ensures Valid() && app.Valid() && app.attached && app.Power() == old(app.Power())
      ensures ok == !old(app.attached)
      ensures !ok ==> unchanged(this)
      ensures ok ==> State() == Check(old(State()))
      ensures ok ==> if Total(old(Draws(Held))) > maxPower
                     then powerDown && Held == [] && sockets == null && socketCnt == 0
                     else unchanged(this)
    {
      ok := app.Plug();
      if ok {
        ConsumptionChanged();
      }
    }

    /** `PowerSource::clearSource` on an appliance the room has taken out of
        its sockets: forces it off, detaches it and, if it was attached,
        notifies the room. */
    method ClearSource(app: Appliance)
      requires Valid() && app.Valid() && app !in Held
      modifies this, app`isOn, app`attached
      ensures Valid() && app.Valid() && !app.isOn && !app.attached
      ensures !old(app.attached) ==> unchanged(this)
      ensures old(app.attached) ==> State() == Check(old(State()))
      ensures old(app.attached) ==> Held == if powerDown then [] else old(Held)
    {
      var notify := app.Unplug();
      if notify {
        ConsumptionChanged();
      }
    }

    /** `operator+=`: refused (no change) when the room has tripped, has no
        free socket, or forbids the kind. Otherwise a clone is attached,
        which notifies the room while the clone is not yet in a socket; the
        clone is then stored, unless that notification tripped the room. */
    method Add(app: Appliance)
      requires Valid() && app.Valid()
      modifies this, sockets
      ensures Valid()
      ensures State() == Admit(old(State()), app.kind, Standby(app.kind))
      ensures !Accepts(old(State()), app.kind) ==> Held == old(Held)
      ensures powerDown ==> Held == []
      ensures !powerDown ==> sockets == old(sockets)
      ensures Accepts(old(State()), app.kind) && !powerDown ==>
                |Held| == |old(Held)| + 1 && Held[..|old(Held)|] == old(Held) &&
                fresh(Held[|old(Held)|]) && Held[|old(Held)|].SameAs(app) &&
                !Held[|old(Held)|].isOn
    {
      ghost var before := State();
      if !powerDown && socketCnt < maxSockets && !Forbids(forbidden, app.kind) {
        var toAdd := new Appliance.Clone(app);
        // The clone is fresh, so attaching it cannot fail; the notification
        // runs before the clone is in a socket.
        var plugged := SetSource(toAdd);
        assert plugged;
        if !powerDown {
          Insert(toAdd);
        } else {
          assert State() == Check(before);
        }
      }
    }

    /** The store step of `operator+=`: an attached appliance goes into the
        first free socket. */
    method Insert(app: Appliance)
      requires Valid() && app.Valid() && app.attached && app !in Held
      requires sockets != null && socketCnt < maxSockets
      modifies this`socketCnt, this`Held, sockets
      ensures Valid() && Held == old(Held) + [app]
      ensures State() == old(State()).(draws := old(State()).draws + [app.Power()])
    {
      DrawsAppend(Held, app);
      sockets[socketCnt] := app;
      socketCnt := socketCnt + 1;
      Held := Held + [app];
    }

    /** `findApp`: the socket of the first appliance with serial number
        `sn`, or `maxSockets` (never a held position) when there is none or
        `sn` is null. */
    method FindApp(sn: Option<string>) returns (pos: nat)
      requires Valid()
      ensures pos == if Match(Held, sn) < |Held| then Match(Held, sn) else maxSockets
      ensures pos < socketCnt <==> exists j :: 0 <= j < |Held| && sn == Some(Held[j].serial)
    {
      if sn.Some? {
        var i := 0;
        while i < socketCnt
          invariant i <= socketCnt
          invariant forall j :: 0 <= j < i ==> Held[j].serial != sn.value
        {
          if sockets[i].serial == sn.value {
            return i;
          }
          i := i + 1;
        }
      }
      return maxSockets;
    }

    /** `operator[]`: the held appliance with serial number `sn`, or null. */
    method Lookup(sn: Option<string>) returns (app: Appliance?)
      requires Valid()
      ensures app == null <==> forall j :: 0 <= j < |Held| ==> sn != Some(Held[j].serial)
      ensures app != null ==> app == Held[Match(Held, sn)] && sn == Some(app.serial)
    {
      var pos := FindApp(sn);
      if pos < socketCnt {
        app := sockets[pos];
      } else {
        app := null;
      }
    }

    /** `operator-=`: removes the first appliance with serial number `sn`
        (nothing happens for an unknown or null serial). The last socket's
        appliance fills the gap; the removed one is switched off and
        detached, which notifies the room, and a room still over budget
        trips. */
    method Remove(sn: Option<string>)
      requires Valid()
      modifies this, sockets, if Match(Held, sn) < |Held| then {Held[Match(Held, sn)]} else {}
      ensures Valid()
      ensures Match(old(Held), sn) == |old(Held)| ==> unchanged(this) && State() == old(State())
      ensures Match(old(Held), sn) < |old(Held)| ==>
                State() == Check(old(State()).(draws := SwapRemove(old(Draws(Held)), Match(old(Held), sn)))) &&
                Held == (if powerDown then [] else SwapRemove(old(Held), Match(old(Held), sn))) &&
                !old(Held)[Match(old(Held), sn)].isOn && !old(Held)[Match(old(Held), sn)].attached
    {
      ghost var k := Match(Held, sn);
      var pos := FindApp(sn);
      if pos < socketCnt {
        assert pos == k;
        RemoveAt(pos);
      } else {
        assert k == |Held|;
      }
    }

    /** `operator-=` once the appliance has been found in socket `pos`. */
    method RemoveAt(pos: nat)
      requires Valid() && pos < socketCnt
      modifies this, sockets, Held[pos]
      ensures Valid()
      ensures State() == Check(old(State()).(draws := SwapRemove(old(Draws(Held)), pos)))
      ensures Held == (if powerDown then [] else SwapRemove(old(Held), pos))
      ensures !old(Held)[pos].isOn && !old(Held)[pos].attached
    {
      ghost var before := State();
      var toRemove := Unseat(pos);
      assert State() == before.(draws := SwapRemove(before.draws, pos));
      ClearSource(toRemove);
    }

    /** The socket step of `operator-=`: the last socket's appliance moves
        into socket `pos`, whose appliance leaves the room still attached. */
    method Unseat(pos: nat) returns (gone: Appliance)
      requires Valid() && pos < socketCnt
      modifies this`socketCnt, this`Held, sockets
      ensures Valid() && gone.Valid() && gone.attached && gone !in Held
      ensures gone == old(Held)[pos] && Held == SwapRemove(old(Held), pos)
      ensures State() == old(State()).(draws := SwapRemove(old(Draws(Held)), pos))
    {
      ghost var before := State();
      ghost var rest := SwapRemove(Held, pos);
      DrawsSwapRemove(Held, pos);
      SwapRemoveDistinct(Held, pos);
      gone := sockets[pos];
      socketCnt := socketCnt - 1;
      Held := rest;
      sockets[pos] := sockets[socketCnt];
      assert sockets[..socketCnt + 1] == old(Held)[pos := old(Held)[socketCnt]];
      assert sockets[..socketCnt] == rest;
      forall a | a in rest
        ensures unchanged(a) && a.Valid() && a.attached
      {
        assert a in old(Held);
      }
      DrawsKept(rest);
      assert State() == before.(draws := SwapRemove(before.draws, pos));
    }

    /** Appliances that did not change draw what they drew. */
    twostate lemma {:induction false} DrawsKept(s: seq<Appliance>)
      requires forall a | a in s :: unchanged(a)
      ensures Draws(s) == old(Draws(s))
      decreases |s|
    {
      if s != [] {
        var t := s[..|s| - 1];
        forall a | a in t
          ensures unchanged(a)
        {
          var j :| 0 <= j < |t| && t[j] == a;
          assert s[j] == a && s[j] in s;
        }
        DrawsKept(t);
        assert s[|s| - 1] in s;
      }
    }

    /** Changing the appliance in socket `i` alone changes only its own
        draw. */
    twostate lemma DrawsUpdate(i: nat)
      requires i < |Held| && unchanged(this)
      requires forall j :: 0 <= j < |Held| && j != i ==> unchanged(Held[j])
      ensures Draws(Held) == old(Draws(Held))[i := Held[i].Power()]
    {
      forall j | 0 <= j < |Held| && j != i
        ensures Draws(Held)[j] == old(Draws(Held))[j]
      {
        assert unchanged(Held[j]);
      }
    }

    /** Switching or dimming the appliance in socket `i`, which stays valid
        and attached, keeps the room valid. */
    twostate lemma OneChangeKeepsValid(i: nat)
      requires old(Valid()) && i < |old(Held)|
      requires unchanged(this) && (sockets != null ==> unchanged(sockets))
      requires forall j :: 0 <= j < |Held| && j != i ==> unchanged(Held[j])
      requires Held[i].Valid() && Held[i].attached
      ensures Valid()
    {
      forall a | a in Held
        ensures a.Valid() && a.attached
      {
        if a != Held[i] {
          var j :| 0 <= j < |Held| && Held[j] == a;
          assert old(a.Valid() && a.attached);
          assert unchanged(a);
        }
      }
    }

    /** `turnOn` on the appliance in socket `i`: succeeds exactly when it is
        off and the room's total with its draw replaced by its switched-on
        draw stays within the budget (a strict excess is refused). A failed
        attempt changes nothing and notifies nobody; a successful one
        notifies the room, which never trips on it. */
    method TurnOn(i: nat) returns (ok: bool)
      requires Valid() && i < |Held|
      modifies this, (Held[i] as Appliance)`isOn
      ensures Valid() && Held == old(Held)
      ensures ok <==> !old(Held[i].isOn) &&
                      Total(old(Draws(Held))) - old(Held[i].Power()) + old(Held[i].OnDraw()) <= maxPower
      ensures Held[i].isOn == (old(Held[i].isOn) || ok)
      ensures ok ==> Held[i].Power() == old(Held[i].OnDraw())
      ensures State() == old(State()).(draws := old(Draws(Held))[i := Held[i].Power()])
      ensures ok ==> Total(Draws(Held)) <= maxPower
    {
      ok := SwitchOn(i);
      if ok {
        ConsumptionChanged();
      }
    }

    /** The appliance's side of `turnOn`, with the room's readings. */
    method SwitchOn(i: nat) returns (ok: bool)
      requires Valid() && i < |Held|
      modifies (Held[i] as Appliance)`isOn
      ensures Valid()
      ensures ok <==> !old(Held[i].isOn) &&
                      Total(old(Draws(Held))) - old(Held[i].Power()) + old(Held[i].OnDraw()) <= maxPower
      ensures Held[i].isOn == (old(Held[i].isOn) || ok)
      ensures ok ==> Held[i].Power() == old(Held[i].OnDraw())
      ensures State() == old(State()).(draws := old(Draws(Held))[i := Held[i].Power()])
      ensures ok ==> Total(Draws(Held)) <= maxPower
    {
      ghost var before := State();
      var app := sockets[i];
      ghost var was := app.Power();
      var total := CurrentConsumption();
      assert total == Total(before.draws);
      ok := app.TurnOn(total, maxPower);
      assert ok <==> !old(app.isOn) && total - was + app.OnDraw() <= maxPower;
      DrawsUpdate(i);
      OneChangeKeepsValid(i);
      assert State() == before.(draws := Draws(Held));
      if ok {
        assert app.Power() == app.OnDraw();
        TotalUpdate(before.draws, i, app.Power());
      }
    }

    /** `turnOff` on the appliance in socket `i`: fails on an appliance that
        is off, changing nothing; otherwise switches it off (a TV falls to
        its standby draw) and notifies the room, which may trip. */
    method TurnOff(i: nat) returns (ok: bool)
      requires Valid() && i < |Held|
      modifies this, (Held[i] as Appliance)`isOn
      ensures Valid()
      ensures ok == old(Held[i].isOn) && !old(Held)[i].isOn
      ensures !ok ==> Held == old(Held) && State() == old(State())
      ensures ok ==> State() == Check(old(State()).(draws := old(Draws(Held))[i := Standby(old(Held)[i].kind)]))
      ensures ok ==> Held == if powerDown then [] else old(Held)
    {
      ok := sockets[i].TurnOff();
      DrawsUpdate(i);
      if ok {
        ConsumptionChanged();
      }
    }

    /** `TV::setBrightness` on the TV in socket `i`: a value above 100 is
        ignored; otherwise the brightness is stored and the room notified,
        which may trip (no budget check precedes it). */
    method SetBrightness(i: nat, br: nat)
      requires Valid() && i < |Held| && Held[i].kind == TV
      modifies this, (Held[i] as Appliance)`brightness
      ensures Valid()
      ensures old(Held)[i].brightness == if br <= 100 then br else old(Held[i].brightness)
      ensures br > 100 ==> Held == old(Held) && State() == old(State())
      ensures br <= 100 ==> State() == Check(old(State()).(draws := old(Draws(Held))[i := old(Held)[i].Power()]))
      ensures br <= 100 ==> Held == if powerDown then [] else old(Held)
    {
      var notify := sockets[i].SetBrightness(br);
      DrawsUpdate(i);
      if notify {
        ConsumptionChanged();
      }
    }
  }

  /** `Room(name, sockets, maxPower)`: a budget that is not positive is
      refused. */
  method NewRoom(capacity: nat, maxPower: real) returns (r: Result<Room, RoomFault>)
    ensures r.Err? <==> maxPower <= 0.0
    ensures r.Err? ==> r.error == BadRoomPower
    ensures r.Ok? ==> fresh(r.value) && r.value.Valid() && r.value.Held == []
    ensures r.Ok? ==> r.value.State() == Fresh(capacity, maxPower)
  {
    if maxPower <= 0.0 {
      return Err(BadRoomPower);
    }
    var room := new Room(capacity, maxPower);
    return Ok(room);
  }
}

/** Client sequences over the room and its appliances, each ending in what
    the program's rules make of it. */
module Scenarios {
  import opened Wrappers
  import opened Appliances
  import opened Breaker
  import opened Rooms

  /** Admission into a room that is within budget and accepts the kind: a
      fresh, switched-off clone of `app` takes the next socket, the room
      draws the clone's standby in addition and does not trip. */
  method Stock(room: Room, app: Appliance) returns (clone: Appliance)
    requires room.Valid() && app.Valid()
    requires !room.powerDown && |room.Held| < room.maxSockets && !Forbids(room.forbidden, app.kind)
    requires Total(Draws(room.Held)) <= room.maxPower
    modifies room, room.sockets
    ensures room.Valid() && room.sockets == old(room.sockets)
    ensures !room.powerDown && room.maxSockets == old(room.maxSockets) && room.forbidden == old(room.forbidden)
    ensures Draws(room.Held) == old(Draws(room.Held)) + [Standby(app.kind)]
    ensures Total(Draws(room.Held)) == Total(old(Draws(room.Held))) + Standby(app.kind)
    ensures room.Held == old(room.Held) + [clone]
    ensures fresh(clone) && clone.SameAs(app) && !clone.isOn
  {
    ghost var before := room.State();
    AdmitWithinBudget(before, app.kind, Standby(app.kind));
    TotalAppend(before.draws, [Standby(app.kind)]);
    assert Total([Standby(app.kind)]) == Standby(app.kind) by {
      assert [Standby(app.kind)][..0] == [];
    }
    room.Add(app);
    clone := room.sockets[room.socketCnt - 1];
  }

  /** A room with `capacity` sockets and a budget of `budget` holding one
      switched-off clone of `app`. */
  method Single(capacity: nat, budget: real, app: Appliance) returns (room: Room, clone: Appliance)
    requires capacity > 0 && budget > 0.0 && app.Valid()
    ensures fresh(room) && fresh(room.sockets) && fresh(clone) && room.Valid()
    ensures room.Held == [clone] && room.maxPower == budget && !room.powerDown
    ensures room.maxSockets == capacity && !Forbids(room.forbidden, app.kind)
    ensures Total(Draws(room.Held)) == Standby(app.kind)
    ensures clone.SameAs(app) && !clone.isOn
  {
    room := new Room(capacity, budget);
    clone := Stock(room, app);
  }

  /** A heater rated 2 in a room with a budget of 2.1 switches on, and the
      room then draws 2. */
  method HeaterWithinBudget() returns (ok: bool, total: real)
    ensures ok && total == 2.0
  {
    var made := NewHeater("Acme", "H-100", "H1", 2.0);
    var room, heater := Single(1, 2.1, made.value);
    ghost var d := Draws(room.Held);
    ok := room.TurnOn(0);
    TotalUpdate(d, 0, heater.Power());
    total := room.CurrentConsumption();
  }

  /** A room with a budget of 2.1 holding two heaters rated 2, both off. */
  method TwoHeaters() returns (room: Room, one: Appliance, two: Appliance)
    ensures fresh(room) && fresh(one) && fresh(two) && room.Valid() && room.Held == [one, two]
    ensures room.maxPower == 2.1 && !room.powerDown
    ensures Total(Draws(room.Held)) == 0.0
    ensures one.kind == two.kind == Heater && one.rated == two.rated == 2.0
    ensures one.serial == two.serial == "H1"
    ensures !one.isOn && !two.isOn
  {
    var made := NewHeater("Acme", "H-100", "H1", 2.0);
    var heater := made.value;
    room := new Room(2, 2.1);
    one := Stock(room, heater);
    assert room.Held == [one];
    two := Stock(room, heater);
    assert room.Held == [one, two];
  }

  /** Two heaters rated 2 in a room with a budget of 2.1: the first switches
      on, the second is refused (2 + 2 > 2.1) and the room does not trip. */
  method SecondHeaterRefused() returns (first: bool, second: bool, tripped: bool)
    ensures first && !second && !tripped
  {
    var room, one, two := TwoHeaters();
    ghost var d := Draws(room.Held);
    first := room.TurnOn(0);
    TotalUpdate(d, 0, one.Power());
    second := room.TurnOn(1);
    tripped := room.powerDown;
  }

  /** A TV rated 0.25 at full brightness, switched on alone in a room with
      a budget of 1. */
  method TelevisionOn() returns (room: Room, tv: Appliance, on: real)
    ensures fresh(room) && fresh(tv) && room.Valid()
    ensures room.Held == [tv] && room.maxPower == 1.0 && !room.powerDown
    ensures tv.kind == TV && tv.isOn && on == tv.Power() == Total(Draws(room.Held)) == 0.25
  {
    var made := NewTV("Acme", "T-1", "T1", 0.25, 100);
    room, tv := Single(1, 1.0, made.value);
    ghost var d := Draws(room.Held);
    assert tv.OnDraw() == 0.25 && tv.Power() == 0.05;
    var ok := room.TurnOn(0);
    TotalUpdate(d, 0, tv.Power());
    on := room.CurrentConsumption();
  }

  /** A TV rated 0.25 at full brightness draws 0.25 when on and its standby
      0.05, not 0, when off. */
  method TelevisionStandby() returns (on: real, off: real)
    ensures on == 0.25 && off == 0.05
  {
    var room, tv;
    room, tv, on := TelevisionOn();
    ghost var e := Draws(room.Held);
    var ok := room.TurnOff(0);
    TotalUpdate(e, 0, Standby(TV));
    off := room.CurrentConsumption();
  }

  /** A fridge rated `p` with three compressors, switched on alone in a room
      with a budget of 4p. */
  method FridgeOn(p: real) returns (room: Room, fridge: Appliance, on: real)
    requires p > 0.0
    ensures fresh(room) && fresh(fridge) && room.Valid()
    ensures room.Held == [fridge] && room.maxPower == 4.0 * p && !room.powerDown
    ensures fridge.kind == Fridge && fridge.isOn && on == fridge.Power() == Total(Draws(room.Held)) == 3.0 * p
  {
    var made := NewFridge("Acme", "F-3", "F1", p, 3);
    room, fridge := Single(1, 4.0 * p, made.value);
    ghost var d := Draws(room.Held);
    assert fridge.OnDraw() == 3.0 * p && fridge.Power() == 0.0;
    var ok := room.TurnOn(0);
    TotalUpdate(d, 0, fridge.Power());
    on := room.CurrentConsumption();
  }

  /** A fridge rated `p` with three compressors draws 3p when on and nothing
      when off. */
  method FridgeCompressors(p: real) returns (on: real, off: real)
    requires p > 0.0
    ensures on == 3.0 * p && off == 0.0
  {
    var room, fridge;
    room, fridge, on := FridgeOn(p);
    ghost var e := Draws(room.Held);
    var ok := room.TurnOff(0);
    TotalUpdate(e, 0, Standby(Fridge));
    off := room.CurrentConsumption();
  }

  /** A heater offered to a room that forbids heaters is refused quietly: the
      room holds nothing afterwards. */
  method ForbiddenKindRefused() returns (found: Appliance?)
    ensures found == null
  {
    var room := new Room(2, 5.0);
    room.AddForbidden(Heater);
    var made := NewHeater("Acme", "H-100", "H1", 2.0);
    room.Add(made.value);
    found := room.Lookup(Some("H1"));
  }

  /** `operator-=` with a serial number no held appliance has. */
  method RemoveUnknown(room: Room, sn: Option<string>)
    requires room.Valid() && Match(room.Held, sn) == |room.Held|
    modifies room, room.sockets
    ensures room.Valid() && room.Held == old(room.Held) && room.sockets == old(room.sockets)
  {
    room.Remove(sn);
  }

  /** Removing by an unknown serial number changes nothing: the unknown
      serial finds nothing before or after, the held heater is still found. */
  method UnknownSerialRemoval() returns (unknown: Appliance?, kept: Appliance?)
    ensures unknown == null && kept != null && kept.serial == "H1"
  {
    var made := NewHeater("Acme", "H-100", "H1", 2.0);
    var room, heater := Single(1, 5.0, made.value);
    assert Match(room.Held, Some("X9")) == 1 by {
      assert heater.serial == "H1" != "X9";
    }
    RemoveUnknown(room, Some("X9"));
    unknown := room.Lookup(Some("X9"));
    kept := room.Lookup(Some("H1"));
  }

  /** `operator-=` with a serial number a held appliance has, in a room the
      removal leaves within budget. */
  method RemoveKnown(room: Room, sn: Option<string>)
    requires room.Valid() && Match(room.Held, sn) < |room.Held|
    requires Total(SwapRemove(Draws(room.Held), Match(room.Held, sn))) <= room.maxPower
    modifies room, room.sockets, room.Held[Match(room.Held, sn)]
    ensures room.Valid() && room.Held == SwapRemove(old(room.Held), Match(old(room.Held), sn))
    ensures !old(room.Held)[Match(old(room.Held), sn)].isOn
    ensures !old(room.Held)[Match(old(room.Held), sn)].attached
  {
    room.Remove(sn);
  }

  /** Of two heaters with the same serial number, removal takes the first;
      the second moves into its socket and is what the serial finds
      afterwards, while the removed one is off and detached. */
  method RemoveFirstOfTwo() returns (one: Appliance, two: Appliance, found: Appliance?)
    ensures found == two && one != two && !one.isOn && !one.attached
  {
    var room;
    room, one, two := TwoHeaters();
    assert Match(room.Held, Some("H1")) == 0 by {
      assert one.serial == "H1";
    }
    assert SwapRemove(Draws(room.Held), 0) == [0.0];
    assert Total([0.0]) == 0.0;
    RemoveKnown(room, Some("H1"));
    assert SwapRemove([one, two], 0) == [two];
    found := room.Lookup(Some("H1"));
  }

  /** A room with four sockets and a budget of 0.1 holding three TVs on
      standby: it draws 0.15, more than its budget, and has not tripped. */
  method ThreeTelevisions() returns (room: Room)
    ensures fresh(room) && fresh(room.sockets) && room.Valid()
    ensures room.maxPower == 0.1 && !room.powerDown
    ensures |room.Held| < room.maxSockets && !Forbids(room.forbidden, TV)
    ensures Total(Draws(room.Held)) == 0.15
  {
    room := new Room(4, 0.1);
    var made := NewTV("Acme", "T-1", "T1", 0.25, 50);
    var tv := made.value;
    var clone := Stock(room, tv);
    clone := Stock(room, tv);
    clone := Stock(room, tv);
  }

  /** The room of three standby TVs reports a total above its budget. */
  method OverBudget() returns (room: Room, over: real)
    ensures fresh(room) && fresh(room.sockets) && room.Valid()
    ensures !room.powerDown && |room.Held| < room.maxSockets && !Forbids(room.forbidden, TV)
    ensures over == Total(Draws(room.Held)) > room.maxPower == 0.1
  {
    room := ThreeTelevisions();
    over := room.CurrentConsumption();
  }

  /** An accepted admission into a room already over budget: the attach
      notification trips the room, which then holds nothing. */
  method AdmitTrips(room: Room, app: Appliance)
    requires room.Valid() && app.Valid()
    requires !room.powerDown && |room.Held| < room.maxSockets && !Forbids(room.forbidden, app.kind)
    requires Total(Draws(room.Held)) > room.maxPower
    modifies room, room.sockets
    ensures room.Valid() && room.powerDown && room.Held == []
  {
    room.Add(app);
  }

  /** Three TVs on standby (0.05 each) sit in a room with a budget of 0.1,
      over budget but not tripped; the attach notification of a fourth TV
      trips the room, which then holds nothing. */
  method FourthTelevisionTrips() returns (over: real, tripped: bool, found: Appliance?)
    ensures over > 0.1 && tripped && found == null
  {
    var made := NewTV("Acme", "T-1", "T4", 0.25, 50);
    var room;
    room, over := OverBudget();
    AdmitTrips(room, made.value);
    tripped := room.powerDown;
    found := room.Lookup(Some("T4"));
  }
}

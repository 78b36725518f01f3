/** Appliances: the closed set of kinds, the power each kind draws, and the
    appliance object with its on/off flag and its single attachment to a source. */
module Appliances {
  import opened Wrappers

  /** The kinds of appliance (`enum class Type`, whose values 1, 2 and 4 are
      the kinds' bits in a room's forbidden mask). */
  datatype Kind = Heater | TV | Fridge

  /** Why an appliance's construction is refused (the `std::invalid_argument`
      cases of the appliance constructors). */
  datatype Fault = BadArguments | BadBrightness

  /** What every appliance constructor demands: non-empty brand, model and
      serial number, and a positive rated power. */
  predicate ArgumentsValid(brand: string, model: string, serial: string, power: real)
  {
    brand != [] && model != [] && serial != [] && power > 0.0
  }

  /** The draw of a switched-off appliance: a TV keeps a standby draw of 0.05,
      the other kinds draw nothing. */
  function Standby(kind: Kind): real
  {
    if kind == TV then 0.05 else 0.0
  }

  /** The power an appliance draws (`getPower` of each kind). */
  function Draw(kind: Kind, rated: real, brightness: nat, compressors: nat, on: bool): (p: real)
    ensures !on ==> p == Standby(kind)
  {
    match kind
    case Heater => if on then rated else 0.0
    case TV => if on then rated * brightness as real / 100.0 else 0.05
    case Fridge => if on then compressors as real * rated else 0.0
  }

  /** What the draw formulas promise for a valid rating: no kind draws a
      negative power; a heater, or a TV at a brightness of at most 100,
      draws at most its rating; a fridge with compressors draws at least it. */
  lemma DrawBounds(kind: Kind, rated: real, brightness: nat, compressors: nat, on: bool)
    requires rated > 0.0 && brightness <= 100
    ensures Draw(kind, rated, brightness, compressors, on) >= 0.0
    ensures on && kind != Fridge ==> Draw(kind, rated, brightness, compressors, on) <= rated
    ensures on && kind == Fridge && compressors >= 1 ==> Draw(kind, rated, brightness, compressors, on) >= rated
  {
    if on {
      match kind
      case Heater =>
      case TV =>
        assert rated * brightness as real <= rated * 100.0;
      case Fridge =>
        assert compressors as real * rated >= 0.0;
        if compressors >= 1 {
          assert compressors as real * rated == rated + (compressors - 1) as real * rated;
          assert (compressors - 1) as real * rated >= 0.0;
        }
    }
  }

  /** An appliance. Identity, kind, rated power and compressor count never
      change; the on/off flag, the attachment and a TV's brightness do. The
      pointer to the source is reduced to the flag `attached`: a room that owns
      the appliance routes every call that needs the source's readings. */
  class Appliance {
    const kind: Kind
    const brand: string
    const model: string
    const serial: string
    /** The rated power (`consumption`). */
    const rated: real
    /** A fridge's compressor count; 0 for the other kinds. */
    const compressors: nat
    /** A TV's brightness in percent; 0 for the other kinds. */
    var brightness: nat
    var isOn: bool
    var attached: bool

    ghost predicate Valid()
      reads this
    {
      ArgumentsValid(brand, model, serial, rated) && brightness <= 100 &&
      (!attached ==> !isOn)
    }

    /** The power drawn now. */
    function Power(): real
      reads this
    {
      Draw(kind, rated, brightness, compressors, isOn)
    }

    /** The power it would draw switched on, with its present configuration. */
    function OnDraw(): real
      reads this
    {
      Draw(kind, rated, brightness, compressors, true)
    }

    /** Identity, kind, rating and payload of `other` are those of this one. */
    predicate SameAs(other: Appliance)
      reads this, other
    {
      kind == other.kind && brand == other.brand && model == other.model &&
      serial == other.serial && rated == other.rated &&
      compressors == other.compressors && brightness == other.brightness
    }

    /** The constructor behind the three factories, for arguments they accepted. */
    constructor Init(kind: Kind, brand: string, model: string, serial: string, power: real,
                     brightness: nat, compressors: nat)
      requires ArgumentsValid(brand, model, serial, power) && brightness <= 100
      ensures Valid() && !isOn && !attached
      ensures this.kind == kind && this.brand == brand && this.model == model
      ensures this.serial == serial && rated == power
      ensures this.brightness == brightness && this.compressors == compressors
    {
      this.kind := kind;
      this.brand := brand;
      this.model := model;
      this.serial := serial;
      rated := power;
      this.brightness := brightness;
      this.compressors := compressors;
      isOn := false;
      attached := false;
    }

    /** `clone`: a copy of every identity field and of the kind's payload,
        switched off and attached to nothing whatever the original's state. */
    constructor Clone(app: Appliance)
      requires app.Valid()
      ensures Valid() && SameAs(app) && !isOn && !attached
      ensures Power() == Standby(kind)
    {
      kind := app.kind;
      brand := app.brand;
      model := app.model;
      serial := app.serial;
      rated := app.rated;
      brightness := app.brightness;
      compressors := app.compressors;
      isOn := false;
      attached := false;
    }

    /** `turnOn`, given what the source reports: its total draw `current` and
        its budget `max`. Fails on an appliance that is on or attached to
        nothing; otherwise succeeds exactly when the source's total with this
        appliance's draw replaced by its switched-on draw stays within the
        budget. A failed attempt leaves the appliance as it was. On success
        the caller notifies the source. */
    method TurnOn(current: real, max: real) returns (ok: bool)
      requires Valid()
      modifies this`isOn
      ensures Valid()
      ensures ok <==> !old(isOn) && attached && current - old(Power()) + OnDraw() <= max
      ensures isOn == (old(isOn) || ok)
    {
      if isOn || !attached {
        return false;
      }
      var rest := current - Power();
      isOn := true;
      if rest + Power() > max {
        isOn := false;
        return false;
      }
      return true;
    }

    /** `turnOff`: fails on an appliance that is already off; otherwise switches
        it off, and the caller notifies the source. */
    method TurnOff() returns (ok: bool)
      requires Valid()
      modifies this`isOn
      ensures Valid()
      ensures ok == old(isOn) && !isOn
    {
      if !isOn {
        return false;
      }
      isOn := false;
      return true;
    }

    /** `TV::setBrightness`: a value above 100 is ignored; otherwise it is
        stored, and the source is to be notified when there is one. */
    method SetBrightness(br: nat) returns (notify: bool)
      requires Valid() && kind == TV
      modifies this`brightness
      ensures Valid()
      ensures brightness == if br <= 100 then br else old(brightness)
      ensures notify == (br <= 100 && attached)
    {
      if br <= 100 {
        brightness := br;
        return attached;
      }
      return false;
    }

    /** `setSource` with a source: attaching an attached appliance is the
        protocol error (`std::logic_error`) and changes nothing; otherwise the
        appliance becomes attached, and the caller notifies the source. */
    method Plug() returns (ok: bool)
      requires Valid()
      modifies this`attached
      ensures Valid() && attached
      ensures ok == !old(attached)
    {
      if attached {
        return false;
      }
      attached := true;
      return true;
    }

    /** `setSource(nullptr)`: forces the appliance off and detaches it; the old
        source, when there was one, is to be notified. */
    method Unplug() returns (notify: bool)
      requires Valid()
      modifies this`isOn, this`attached
      ensures Valid() && !isOn && !attached
      ensures notify == old(attached)
    {
      isOn := false;
      notify := attached;
      attached := false;
    }
  }

  /** `Heater(brand, model, serial, power)`. */
  method NewHeater(brand: string, model: string, serial: string, power: real)
    returns (r: Result<Appliance, Fault>)
    ensures r.Err? <==> !ArgumentsValid(brand, model, serial, power)
    ensures r.Err? ==> r.error == BadArguments
    ensures r.Ok? ==> fresh(r.value) && r.value.Valid() && r.value.kind == Heater
    ensures r.Ok? ==> r.value.brand == brand && r.value.model == model && r.value.serial == serial
    ensures r.Ok? ==> r.value.rated == power && !r.value.isOn && !r.value.attached
  {
    if !ArgumentsValid(brand, model, serial, power) {
      return Err(BadArguments);
    }
    var app := new Appliance.Init(Heater, brand, model, serial, power, 0, 0);
    return Ok(app);
  }

  /** `TV(brand, model, serial, power, initialBrightness)`: the identity is
      checked first, then the brightness. */
  method NewTV(brand: string, model: string, serial: string, power: real, initialBrightness: nat)
    returns (r: Result<Appliance, Fault>)
    ensures r.Err? <==> !ArgumentsValid(brand, model, serial, power) || initialBrightness > 100
    ensures r.Err? ==> r.error == if ArgumentsValid(brand, model, serial, power) then BadBrightness else BadArguments
    ensures r.Ok? ==> fresh(r.value) && r.value.Valid() && r.value.kind == TV
    ensures r.Ok? ==> r.value.brand == brand && r.value.model == model && r.value.serial == serial
    ensures r.Ok? ==> r.value.rated == power && r.value.brightness == initialBrightness
    ensures r.Ok? ==> !r.value.isOn && !r.value.attached
  {
    if !ArgumentsValid(brand, model, serial, power) {
      return Err(BadArguments);
    }
    if initialBrightness > 100 {
      return Err(BadBrightness);
    }
    var app := new Appliance.Init(TV, brand, model, serial, power, initialBrightness, 0);
    return Ok(app);
  }

  /** `Fridge(brand, model, serial, power, compressors)`: any compressor count. */
  method NewFridge(brand: string, model: string, serial: string, power: real, compressors: nat)
    returns (r: Result<Appliance, Fault>)
    ensures r.Err? <==> !ArgumentsValid(brand, model, serial, power)
    ensures r.Err? ==> r.error == BadArguments
    ensures r.Ok? ==> fresh(r.value) && r.value.Valid() && r.value.kind == Fridge
    ensures r.Ok? ==> r.value.brand == brand && r.value.model == model && r.value.serial == serial
    ensures r.Ok? ==> r.value.rated == power && r.value.compressors == compressors
    ensures r.Ok? ==> !r.value.isOn && !r.value.attached
  {
    if !ArgumentsValid(brand, model, serial, power) {
      return Err(BadArguments);
    }
    var app := new Appliance.Init(Fridge, brand, model, serial, power, 0, compressors);
    return Ok(app);
  }
}

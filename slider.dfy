/** The slider widget: which handle a pointer selection moves, and the
    drag listeners a gesture registers on the drawing surface and releases.
    The pointer's angle (what the geometry engine derives from the pointer
    position) is an input; the DOM and the trigonometry are not modelled. */
module Slider {
  import opened Wrappers
  import opened Geometry

  /** The props the selection rule reads. */
  datatype Props = Props(
    minValue: real,
    maxValue: real,
    startAngle: real,
    endAngle: real,
    disabled: bool,
    coerceToInt: bool)

  /** JavaScript truthiness of a handle value: absent and 0 are falsy. */
  predicate Truthy(h: Option<real>)
  {
    h.Some? && h.value != 0.0
  }

  function Abs(x: real): real {
    if x < 0.0 then -x else x
  }

  /** `Math.round`: the integer nearest to `x`, halves rounding up. */
  function Round(x: real): (n: int)
    ensures x - 0.5 < n as real <= x + 0.5
  {
    (x + 0.5).Floor
  }

  datatype HandleId = First | Second

  /** Which handle a value is to move: the second only when it is present
      and strictly nearer; ties go to the first. */
  function Nearest(handle1: real, handle2: Option<real>, value: real): (c: HandleId)
    ensures c == Second ==> Truthy(handle2) && Abs(value - handle2.value) < Abs(value - handle1)
    ensures c == First ==> !Truthy(handle2) || Abs(value - handle1) <= Abs(value - handle2.value)
  {
    if Truthy(handle2) && Abs(value - handle2.value) < Abs(value - handle1) then Second else First
  }

  /** How a selection ends: normally, or by an error thrown out of the handler. */
  datatype Outcome = Done | Threw(error: Error)

  /** The handles after a selection, and how it ended. */
  datatype Selection = Selection(outcome: Outcome, handle1: Option<real>, handle2: Option<real>)

  /** The value a selection stores: the interpolated value, rounded when
      the widget coerces to integers. */
  function StoredValue(p: Props, raw: real): (v: real)
    ensures p.coerceToInt ==> v.Floor as real == v && raw - 0.5 < v <= raw + 0.5
    ensures !p.coerceToInt ==> v == raw
  {
    if p.coerceToInt then Round(raw) as real else raw
  }

  /** The handle widget can be operated: enabled and with a truthy first handle. */
  predicate Controllable(p: Props, handle1: Option<real>)
  {
    !p.disabled && Truthy(handle1)
  }

  /** The effect of one pointer selection at `angle` on the two handles,
      when the surface is `mounted` (the element reference is set). */
  function Select(p: Props, mounted: bool, handle1: Option<real>, handle2: Option<real>, angle: real)
    : (r: Selection)
    // read-only, or not yet mounted: nothing happens
    ensures !Truthy(handle1) || !mounted ==> r == Selection(Done, handle1, handle2)
    // an invalid span throws, and the handles are untouched
    ensures r.outcome.Threw? <==> Truthy(handle1) && mounted && p.endAngle <= p.startAngle
    ensures r.outcome.Threw? ==> r.outcome.error == InvalidRange
    // disabled: neither handle moves
    ensures p.disabled || r.outcome.Threw? ==> r.handle1 == handle1 && r.handle2 == handle2
    // otherwise exactly one handle takes the stored value, the nearer one
    ensures Controllable(p, handle1) && mounted && p.startAngle < p.endAngle ==>
      var v := StoredValue(p, AngleToValue(angle, p.minValue, p.maxValue, p.startAngle, p.endAngle).value);
      if Truthy(handle2) && Abs(v - handle2.value) < Abs(v - handle1.value)
      then r.handle2 == Some(v) && r.handle1 == handle1
      else r.handle1 == Some(v) && r.handle2 == handle2
  {
    if !Truthy(handle1) || !mounted then Selection(Done, handle1, handle2)
    else
      match AngleToValue(angle, p.minValue, p.maxValue, p.startAngle, p.endAngle)
      case Err(e) => Selection(Threw(e), handle1, handle2)
      case Ok(raw) =>
        var v := StoredValue(p, raw);
        if p.disabled then Selection(Done, handle1, handle2)
        else if Nearest(handle1.value, handle2, v) == Second then Selection(Done, handle1, Some(v))
        else Selection(Done, Some(v), handle2)
  }

  /** A widget that cannot be operated never moves a handle. */
  lemma UncontrollableIsInert(p: Props, mounted: bool, handle1: Option<real>, handle2: Option<real>, angle: real)
    requires !Controllable(p, handle1)
    ensures Select(p, mounted, handle1, handle2, angle).handle1 == handle1
    ensures Select(p, mounted, handle1, handle2, angle).handle2 == handle2
  {
  }

  /** A handle 1 holding 0 is falsy: a selection then changes nothing. */
  lemma ZeroHandleIsReadOnly(p: Props, mounted: bool, handle2: Option<real>, angle: real)
    ensures Select(p, mounted, Some(0.0), handle2, angle) == Selection(Done, Some(0.0), handle2)
  {
  }

  /** A selection moves at most one handle, and a moved handle holds a
      value in the value range. */
  lemma SelectMovesOneHandleInRange(p: Props, mounted: bool, handle1: Option<real>, handle2: Option<real>, angle: real)
    requires !p.coerceToInt
    ensures var r := Select(p, mounted, handle1, handle2, angle);
      (r.handle1 == handle1 || r.handle2 == handle2) &&
      (r.handle1 != handle1 ==> Between(r.handle1.value, p.minValue, p.maxValue)) &&
      (r.handle2 != handle2 ==> Between(r.handle2.value, p.minValue, p.maxValue))
  {
  }

  // ---------------------------------------------------------------------
  // Event listeners on the drawing surface
  // ---------------------------------------------------------------------

  datatype EventType = MouseMove | TouchMove | MouseLeave | MouseUp | TouchEnd

  /** The two handler functions the widget registers. */
  datatype Handler = SelectionHandler | RemovalHandler

  datatype Listener = Listener(event: EventType, handler: Handler)

  /** What a mouse gesture registers. */
  const MouseGesture: set<Listener> :=
    {Listener(MouseMove, SelectionHandler), Listener(MouseLeave, RemovalHandler), Listener(MouseUp, RemovalHandler)}

  /** What a touch gesture registers. */
  const TouchGesture: set<Listener> :=
    {Listener(TouchMove, SelectionHandler), Listener(MouseLeave, RemovalHandler), Listener(TouchEnd, RemovalHandler)}

  /** What removing the listeners unregisters. */
  const Released: set<Listener> :=
    {Listener(MouseMove, SelectionHandler), Listener(TouchMove, SelectionHandler),
     Listener(MouseLeave, RemovalHandler), Listener(MouseUp, RemovalHandler),
     Listener(TouchEnd, RemovalHandler)}

  /** Every listener a gesture can register is one that the release removes,
      and each gesture registers a way to end it. */
  lemma GesturesAreReleased()
    ensures MouseGesture + TouchGesture == Released
    ensures Listener(MouseUp, RemovalHandler) in MouseGesture
    ensures Listener(TouchEnd, RemovalHandler) in TouchGesture
  {
  }

  /** One slider instance: its two handle values (initialised from the
      props) and the listeners registered on its drawing surface. */
  class CircularSlider {
    const props: Props
    /** The element reference is set: the surface is rendered. */
    const mounted: bool
    var handle1: Option<real>
    var handle2: Option<real>
    var listeners: set<Listener>

    /** Only gesture listeners are ever registered, and only on a mounted surface. */
    ghost predicate Valid()
      reads this
    {
      listeners <= Released && (!mounted ==> listeners == {})
    }

    /** The widget reacts to the pointer, and handle 1 is drawn. */
    predicate IsControllable()
      reads this
    {
      Controllable(props, handle1)
    }

    constructor(props: Props, mounted: bool, handleValue1: Option<real>, handleValue2: Option<real>)
      ensures Valid()
      ensures this.props == props && this.mounted == mounted
      ensures handle1 == handleValue1 && handle2 == handleValue2
      ensures listeners == {}
    {
      this.props := props;
      this.mounted := mounted;
      handle1 := handleValue1;
      handle2 := handleValue2;
      listeners := {};
    }

    /** Handles a pointer selection at `angle`: moves the nearer handle. */
    method ProcessSelection(angle: real) returns (outcome: Outcome)
      requires Valid()
      modifies this`handle1, this`handle2
      ensures Valid()
      ensures Selection(outcome, handle1, handle2) == Select(props, mounted, old(handle1), old(handle2), angle)
      ensures !old(IsControllable()) ==> handle1 == old(handle1) && handle2 == old(handle2)
    {
      if !Truthy(handle1) {
        return Done;
      }
      if !mounted {
        return Done;
      }
      var value := AngleToValue(angle, props.minValue, props.maxValue, props.startAngle, props.endAngle);
      if value.Err? {
        return Threw(value.error);
      }
      var v := value.value;
      if props.coerceToInt {
        v := Round(v) as real;
      }
      if !props.disabled {
        if Truthy(handle2) && Abs(v - handle2.value) < Abs(v - handle1.value) {
          handle2 := Some(v);
        } else {
          handle1 := Some(v);
        }
      }
      outcome := Done;
    }

    /** Starts a mouse gesture: registers the mouse listeners, then selects. */
    method OnMouseDown(angle: real) returns (outcome: Outcome)
      requires Valid()
      modifies this
      ensures Valid()
      ensures listeners == if mounted then old(listeners) + MouseGesture else old(listeners)
      ensures Selection(outcome, handle1, handle2) == Select(props, mounted, old(handle1), old(handle2), angle)
    {
      if mounted {
        listeners := listeners + MouseGesture;
      }
      outcome := ProcessSelection(angle);
    }

    /** Starts a touch gesture: registers the touch listeners, then selects. */
    method OnTouchStart(angle: real) returns (outcome: Outcome)
      requires Valid()
      modifies this
      ensures Valid()
      ensures listeners == if mounted then old(listeners) + TouchGesture else old(listeners)
      ensures Selection(outcome, handle1, handle2) == Select(props, mounted, old(handle1), old(handle2), angle)
    {
      if mounted {
        listeners := listeners + TouchGesture;
      }
      outcome := ProcessSelection(angle);
    }

    /** The pointer enters the surface: with only the left button pressed
      (`buttons == 1`) it acts as a mouse-down; otherwise nothing changes. */
    method OnMouseEnter(buttons: int, angle: real) returns (outcome: Outcome)
      requires Valid()
      modifies this
      ensures Valid()
      ensures buttons != 1 ==>
        outcome == Done && listeners == old(listeners) &&
        handle1 == old(handle1) && handle2 == old(handle2)
      ensures buttons == 1 ==>
        listeners == (if mounted then old(listeners) + MouseGesture else old(listeners)) &&
        Selection(outcome, handle1, handle2) == Select(props, mounted, old(handle1), old(handle2), angle)
    {
      outcome := Done;
      if buttons == 1 {
        outcome := OnMouseDown(angle);
      }
    }

    /** Ends a gesture: unregisters every gesture listener. */
    method RemoveMouseListeners()
      requires Valid()
      modifies this`listeners
      ensures Valid()
      ensures listeners == {}
    {
      if mounted {
        listeners := listeners - Released;
      }
    }

    /** The surface fires an event of type `ev`: the registered handler, if
        any, runs (each event type has at most one handler registered). */
    method Dispatch(ev: EventType, angle: real) returns (outcome: Outcome)
      requires Valid()
      modifies this
      ensures Valid()
      ensures Listener(ev, SelectionHandler) in old(listeners) ==>
        listeners == old(listeners) &&
        Selection(outcome, handle1, handle2) == Select(props, mounted, old(handle1), old(handle2), angle)
      ensures Listener(ev, RemovalHandler) in old(listeners) ==>
        outcome == Done && listeners == {} && handle1 == old(handle1) && handle2 == old(handle2)
      ensures Listener(ev, SelectionHandler) !in old(listeners) && Listener(ev, RemovalHandler) !in old(listeners) ==>
        outcome == Done && listeners == old(listeners) && handle1 == old(handle1) && handle2 == old(handle2)
    {
      outcome := Done;
      if Listener(ev, SelectionHandler) in listeners {
        outcome := ProcessSelection(angle);
      } else if Listener(ev, RemovalHandler) in listeners {
        RemoveMouseListeners();
      }
    }
  }
}

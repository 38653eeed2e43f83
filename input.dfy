/** Forwarding of keyboard and wheel events to the host: the mode an event
    is reported with, and the key-override set that suppresses forwarding. */
module Input {
  import opened Js

  /** The `EventMode` enumeration, in declaration order. */
  datatype EventMode =
    | KeyUp | KeyDown
    | ScrollUp | ScrollDown | ScrollLeft | ScrollRight
    | SwipeUp | SwipeDown | SwipeLeft | SwipeRight
    | PressShort | PressLong

  /** The numeric value of an enumeration member, as posted in a payload. */
  function ModeNumber(m: EventMode): (n: nat)
    ensures n < 12
  {
    match m
    case KeyUp => 0
    case KeyDown => 1
    case ScrollUp => 2
    case ScrollDown => 3
    case ScrollLeft => 4
    case ScrollRight => 5
    case SwipeUp => 6
    case SwipeDown => 7
    case SwipeLeft => 8
    case SwipeRight => 9
    case PressShort => 10
    case PressLong => 11
  }

  /** Distinct modes are posted as distinct numbers. */
  lemma ModeNumberInjective(a: EventMode, b: EventMode)
    requires ModeNumber(a) == ModeNumber(b)
    ensures a == b
  {
  }

  /** `event.type === "keydown" ? EventMode.KeyDown : EventMode.KeyUp` */
  function KeyMode(keydown: bool): (m: EventMode)
    ensures m == KeyDown <==> keydown
    ensures m == KeyUp <==> !keydown
  {
    if keydown then KeyDown else KeyUp
  }

  /** The wheel branch: vertical movement wins over horizontal, and a wheel
      event without movement is reported as ScrollUp. */
  function WheelMode(deltaX: real, deltaY: real): (m: EventMode)
    ensures m == ScrollDown <==> deltaY > 0.0
    ensures m == ScrollUp <==> deltaY < 0.0 || (deltaY == 0.0 && deltaX == 0.0)
    ensures m == ScrollRight <==> deltaY == 0.0 && deltaX > 0.0
    ensures m == ScrollLeft <==> deltaY == 0.0 && deltaX < 0.0
  {
    var mode := ScrollUp;
    if deltaY > 0.0 then ScrollDown
    else if deltaY < 0.0 then ScrollUp
    else if deltaX > 0.0 then ScrollRight
    else if deltaX < 0.0 then ScrollLeft
    else mode
  }

  /** Only the signs of the deltas matter: scaling a wheel movement by any
      positive factor reports the same mode. */
  lemma WheelModeScaleInvariant(deltaX: real, deltaY: real, c: real)
    requires c > 0.0
    ensures WheelMode(c * deltaX, c * deltaY) == WheelMode(deltaX, deltaY)
  {
    assert deltaY > 0.0 ==> c * deltaY > 0.0;
    assert deltaY < 0.0 ==> c * deltaY < 0.0;
    assert deltaX > 0.0 ==> c * deltaX > 0.0;
    assert deltaX < 0.0 ==> c * deltaX < 0.0;
  }

  /** Reversing a movement reverses the mode, except that a still wheel stays ScrollUp. */
  lemma WheelModeReversed(deltaX: real, deltaY: real)
    requires deltaX != 0.0 || deltaY != 0.0
    ensures var m, n := WheelMode(deltaX, deltaY), WheelMode(-deltaX, -deltaY);
      (m == ScrollUp <==> n == ScrollDown) && (m == ScrollLeft <==> n == ScrollRight)
  {
  }

  /** The lower-cased forms of a list of key codes (`key.toLowerCase()` for each). */
  function Lowered(keys: seq<string>): (r: set<string>)
    ensures forall k | k in r :: Lower(k) == k
    decreases |keys|
  {
    if keys == [] then {}
    else
      LowerIdempotent(keys[|keys| - 1]);
      Lowered(keys[..|keys| - 1]) + {Lower(keys[|keys| - 1])}
  }

  /** A code is in the lowered set exactly when some listed key lower-cases to it. */
  lemma {:induction false} LoweredMembership(keys: seq<string>, code: string)
    ensures code in Lowered(keys) <==> exists j :: 0 <= j < |keys| && Lower(keys[j]) == code
    decreases |keys|
  {
    if keys != [] {
      var init := keys[..|keys| - 1];
      LoweredMembership(init, code);
      if code in Lowered(init) {
        var j :| 0 <= j < |init| && Lower(init[j]) == code;
        assert keys[j] == init[j];
      }
      if exists j :: 0 <= j < |keys| && Lower(keys[j]) == code {
        var j :| 0 <= j < |keys| && Lower(keys[j]) == code;
        if j < |init| {
          assert init[j] == keys[j];
        }
      }
    }
  }

  /** A keyboard event is handled by the app instead of the host when its
      lower-cased `code` has been overridden. */
  predicate KeySuppressed(overrides: set<string>, code: string) {
    Lower(code) in overrides
  }

  /** Wheel events are suppressed only by the entry "wheel". */
  predicate WheelSuppressed(overrides: set<string>) {
    "wheel" in overrides
  }

  /** Overriding is case-insensitive: overriding "KeyA" also suppresses
      events whose code is "keya" or "KEYA". */
  lemma OverrideIgnoresCase(keys: seq<string>, j: nat, code: string)
    requires j < |keys| && Lower(code) == Lower(keys[j])
    ensures KeySuppressed(Lowered(keys), code)
  {
    LoweredMembership(keys, Lower(code));
  }

  /** Overriding "Scroll" (the id under which wheel events are reported)
      does not stop wheel forwarding; only "wheel" (in any case) does. */
  lemma ScrollOverrideLeavesWheel()
    ensures !WheelSuppressed(Lowered(["Scroll"]))
    ensures WheelSuppressed(Lowered(["Wheel"]))
  {
    assert Lower("Scroll")[0] == 's';
    assert Lower("Wheel") == "wheel";
  }

  /** `restoreKeys(keys)` after `overrideKeys(keys)` gives back the set as it
      was, provided none of those keys was overridden before. */
  lemma RestoreUndoesOverride(before: set<string>, keys: seq<string>)
    requires before * Lowered(keys) == {}
    ensures (before + Lowered(keys)) - Lowered(keys) == before
  {
  }
}

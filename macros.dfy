/** The tap-vs-hold macro dispatcher of the layout (action_get_macro): five
    timed macros hold a modifier while the key is down and, when the key comes
    up quickly, also type a second key combination; a sixth passes caps lock
    through. All timed macros share one 16-bit timestamp. */
module Macros {
  import opened MachineInts
  import opened KeyCodes

  // Macro ids.
  const OBRACE: uint8 := 0
  const CBRACE: uint8 := 1
  const OBRACK: uint8 := 2
  const CBRACK: uint8 := 3
  const MRALT: uint8 := 4
  const CAPS: uint8 := 5

  /** A release sooner than this many timer ticks after the press is a tap. */
  const KEY_TAP_SLOW: uint16 := 90

  /** Ticks from `since` to `now` on the 16-bit timer, which wraps around. */
  function Elapsed(now: uint16, since: uint16): (r: uint16)
    ensures (since as int + r as int) % 0x1_0000 == now as int
    ensures since <= now ==> r == now - since
  {
    ((now as int - since as int) % 0x1_0000) as uint16
  }

  /** The ids whose release depends on the time since the press. */
  predicate IsTimed(id: uint8) {
    id == OBRACE || id == CBRACE || id == OBRACK || id == CBRACK || id == MRALT
  }

  /** The modifier a timed macro holds while its key is down. */
  function Primary(id: uint8): KeyCode
    requires IsTimed(id)
  {
    if id == OBRACE || id == CBRACE then RSFT
    else if id == OBRACK || id == CBRACK then LALT
    else RALT
  }

  /** The combination a timed macro types when its key is tapped, outermost key first. */
  function TapKeys(id: uint8): seq<KeyCode>
    requires IsTimed(id)
  {
    if id == OBRACE then [RALT, QUOTE]
    else if id == CBRACE then [RALT, BSLS]
    else if id == OBRACK then [RALT, LBRACKET]
    else if id == CBRACK then [RALT, RBRACKET]
    else [F12]
  }

  /** Tapping a single key: down, then up. */
  lemma {:induction false} TapOfOne(k: KeyCode)
    ensures Tap([k]) == [Register(k), Unregister(k)]
  {
    assert [k][1..] == [];
  }

  /** Tapping a two-key combination: outer down, inner down, inner up, outer up. */
  lemma {:induction false} TapOfTwo(outer: KeyCode, inner: KeyCode)
    ensures Tap([outer, inner]) == [Register(outer), Register(inner), Unregister(inner), Unregister(outer)]
  {
    assert [outer, inner][1..] == [inner];
    TapOfOne(inner);
  }

  /** What one call of the dispatcher leaves behind: the shared timestamp and
      the events it sent, in order. */
  datatype Output = Output(timer: uint16, events: seq<Event>)

  /** The effect of one call with the key going down (`pressed`) or up, for
      macro `id`, when the firmware timer reads `now` and the shared timestamp
      holds `timer`. */
  function Dispatch(timer: uint16, pressed: bool, id: uint8, now: uint16): Output {
    if IsTimed(id) then
      if pressed then Output(now, [Register(Primary(id))])
      else
        var tap := if Elapsed(now, timer) < KEY_TAP_SLOW then Tap(TapKeys(id)) else [];
        Output(timer, [Unregister(Primary(id))] + tap)
    else if id == CAPS then
      Output(timer, [if pressed then Register(CAPSLOCK) else Unregister(CAPSLOCK)])
    else
      Output(timer, [])
  }

  /** The dispatcher's state: the shared timestamp and everything it has sent
      to the firmware so far. */
  class Dispatcher {
    var keyTimer: uint16
    var log: seq<Event>

    /** The timestamp is a static variable and so starts at zero. */
    constructor ()
      ensures keyTimer == 0 && log == []
    {
      keyTimer := 0;
      log := [];
    }

    method RegisterCode(c: KeyCode)
      modifies this`log
      ensures log == old(log) + [Register(c)]
    {
      log := log + [Register(c)];
    }

    method UnregisterCode(c: KeyCode)
      modifies this`log
      ensures log == old(log) + [Unregister(c)]
    {
      log := log + [Unregister(c)];
    }

    /** One key event for macro `id`; the timer reads `now` throughout the
        call. Returns the macro for the firmware to play back, always the empty
        one (every effect is a direct register or unregister). */
    method ActionGetMacro(pressed: bool, id: uint8, now: uint16) returns (played: seq<Event>)
      modifies this
      ensures played == []
      ensures keyTimer == Dispatch(old(keyTimer), pressed, id, now).timer
      ensures log == old(log) + Dispatch(old(keyTimer), pressed, id, now).events
    {
      if id == OBRACE {
        if pressed {
          keyTimer := now;
          RegisterCode(RSFT);
        } else {
          UnregisterCode(RSFT);
          if Elapsed(now, keyTimer) < KEY_TAP_SLOW {
            RegisterCode(RALT);
            RegisterCode(QUOTE);
            UnregisterCode(QUOTE);
            UnregisterCode(RALT);
          }
        }
      } else if id == CBRACE {
        if pressed {
          keyTimer := now;
          RegisterCode(RSFT);
        } else {
          UnregisterCode(RSFT);
          if Elapsed(now, keyTimer) < KEY_TAP_SLOW {
            RegisterCode(RALT);
            RegisterCode(BSLS);
            UnregisterCode(BSLS);
            UnregisterCode(RALT);
          }
        }
      } else if id == OBRACK {
        if pressed {
          keyTimer := now;
          RegisterCode(LALT);
        } else {
          UnregisterCode(LALT);
          if Elapsed(now, keyTimer) < KEY_TAP_SLOW {
            RegisterCode(RALT);
            RegisterCode(LBRACKET);
            UnregisterCode(LBRACKET);
            UnregisterCode(RALT);
          }
        }
      } else if id == CBRACK {
        if pressed {
          keyTimer := now;
          RegisterCode(LALT);
        } else {
          UnregisterCode(LALT);
          if Elapsed(now, keyTimer) < KEY_TAP_SLOW {
            RegisterCode(RALT);
            RegisterCode(RBRACKET);
            UnregisterCode(RBRACKET);
            UnregisterCode(RALT);
          }
        }
      } else if id == MRALT {
        if pressed {
          keyTimer := now;
          RegisterCode(RALT);
        } else {
          UnregisterCode(RALT);
          if Elapsed(now, keyTimer) < KEY_TAP_SLOW {
            RegisterCode(F12);
            UnregisterCode(F12);
          }
        }
      } else if id == CAPS {
        if pressed {
          RegisterCode(CAPSLOCK);
        } else {
          UnregisterCode(CAPSLOCK);
        }
      }
      played := [];
      if IsTimed(id) && !pressed {
        if id == MRALT {
          TapOfOne(F12);
        } else {
          TapOfTwo(RALT, TapKeys(id)[1]);
        }
      }
    }
  }

  /** A key-down of a timed macro stores the time and registers exactly its
      modifier: right shift for the braces, left alt for the brackets, right
      alt for MRALT. */
  lemma PressHoldsModifier(timer: uint16, id: uint8, now: uint16)
    requires IsTimed(id)
    ensures Dispatch(timer, true, id, now).timer == now
    ensures Dispatch(timer, true, id, now).events == [Register(Primary(id))]
    ensures Primary(id) == (if id <= CBRACE then RSFT else if id <= CBRACK then LALT else RALT)
  {
  }

  /** A quick release of a brace or bracket macro releases the modifier, then
      types right alt plus the macro's key: right alt down, key down, key up,
      right alt up. */
  lemma {:induction false} QuickReleaseTypesCombination(timer: uint16, id: uint8, now: uint16)
    requires id == OBRACE || id == CBRACE || id == OBRACK || id == CBRACK
    requires Elapsed(now, timer) < KEY_TAP_SLOW
    ensures var x := if id == OBRACE then QUOTE else if id == CBRACE then BSLS
                     else if id == OBRACK then LBRACKET else RBRACKET;
            Dispatch(timer, false, id, now) ==
              Output(timer, [Unregister(Primary(id)), Register(RALT), Register(x), Unregister(x), Unregister(RALT)])
  {
    TapOfTwo(RALT, TapKeys(id)[1]);
  }

  /** A quick release of MRALT releases right alt and then taps F12. */
  lemma {:induction false} QuickReleaseOfMraltTapsF12(timer: uint16, now: uint16)
    requires Elapsed(now, timer) < KEY_TAP_SLOW
    ensures Dispatch(timer, false, MRALT, now) == Output(timer, [Unregister(RALT), Register(F12), Unregister(F12)])
  {
    TapOfOne(F12);
  }

  /** A slow release only releases the modifier and leaves the timestamp alone. */
  lemma SlowReleaseOnlyReleases(timer: uint16, id: uint8, now: uint16)
    requires IsTimed(id)
    requires Elapsed(now, timer) >= KEY_TAP_SLOW
    ensures Dispatch(timer, false, id, now) == Output(timer, [Unregister(Primary(id))])
  {
  }

  /** The caps macro sends one caps-lock event per call, whatever the timer
      reads, and never touches the timestamp; its press and release leave caps
      lock released and every other code as it was. */
  lemma {:induction false} CapsPassesThrough(held: set<KeyCode>, timer: uint16, pressed: bool, now: uint16)
    ensures Dispatch(timer, pressed, CAPS, now) ==
            Output(timer, [if pressed then Register(CAPSLOCK) else Unregister(CAPSLOCK)])
    ensures Apply(held, Dispatch(timer, true, CAPS, now).events + Dispatch(timer, false, CAPS, now).events)
            == held - {CAPSLOCK}
  {
    ApplyConcat(held, [Register(CAPSLOCK)], [Unregister(CAPSLOCK)]);
  }

  /** An id outside 0..5 sends nothing and leaves the timestamp alone. */
  lemma UnknownIdIsIgnored(timer: uint16, pressed: bool, id: uint8, now: uint16)
    requires id > CAPS
    ensures Dispatch(timer, pressed, id, now) == Output(timer, [])
  {
  }

  /** The codes a timed macro's press and release may touch. */
  function Touched(id: uint8, tapped: bool): set<KeyCode>
    requires IsTimed(id)
  {
    {Primary(id)} + if tapped then set k | k in TapKeys(id) else {}
  }

  /** A key-up of a timed macro, whatever came before it, releases its
      modifier and (on a tap) every key of the tap, and changes no other code. */
  lemma {:induction false} ReleaseClearsTouched(held: set<KeyCode>, timer: uint16, id: uint8, now: uint16)
    requires IsTimed(id)
    ensures Apply(held, Dispatch(timer, false, id, now).events) == held - Touched(id, Elapsed(now, timer) < KEY_TAP_SLOW)
  {
    var p := Primary(id);
    var tap := if Elapsed(now, timer) < KEY_TAP_SLOW then TapKeys(id) else [];
    assert Dispatch(timer, false, id, now).events == [Unregister(p)] + Tap(tap);
    ApplyConcat(held, [Unregister(p)], Tap(tap));
    ApplyOne(held, Unregister(p));
    TapReleasesItsKeys(held - {p}, tap);
  }

  /** A key-down immediately followed by the key-up of the same timed macro
      leaves every code the pair registered released and every other code as
      it was. */
  lemma {:induction false} PressReleaseIsBalanced(held: set<KeyCode>, timer: uint16, id: uint8, down: uint16, up: uint16)
    requires IsTimed(id)
    ensures var press := Dispatch(timer, true, id, down);
            var release := Dispatch(press.timer, false, id, up);
            var tapped := Elapsed(up, down) < KEY_TAP_SLOW;
            Apply(held, press.events + release.events) == held - Touched(id, tapped)
  {
    var tapped := Elapsed(up, down) < KEY_TAP_SLOW;
    var tap := if tapped then TapKeys(id) else [];
    assert Dispatch(down, false, id, up).events == [Unregister(Primary(id))] + Tap(tap);
    HoldThenRelease(held, Primary(id), tap);
  }

  /** When nothing the macro touches was held before its key-down, the held
      set after its key-up is exactly the one before the key-down. */
  lemma {:induction false} PressReleaseRestoresHeld(held: set<KeyCode>, timer: uint16, id: uint8, down: uint16, up: uint16)
    requires IsTimed(id)
    requires held !! Touched(id, true)
    ensures Apply(held, Dispatch(timer, true, id, down).events + Dispatch(down, false, id, up).events) == held
  {
    PressReleaseIsBalanced(held, timer, id, down, up);
    assert Dispatch(timer, true, id, down).timer == down;
  }

  /** A key-down immediately followed by its own key-up gives back the held
      set exactly when none of the codes the pair touched was held before. */
  lemma {:induction false} PressReleaseRestoresExactly(held: set<KeyCode>, timer: uint16, id: uint8, down: uint16, up: uint16)
    requires IsTimed(id)
    ensures Apply(held, Dispatch(timer, true, id, down).events + Dispatch(down, false, id, up).events) == held
            <==> held !! Touched(id, Elapsed(up, down) < KEY_TAP_SLOW)
  {
    PressReleaseIsBalanced(held, timer, id, down, up);
    assert Dispatch(timer, true, id, down).timer == down;
    var t := Touched(id, Elapsed(up, down) < KEY_TAP_SLOW);
    if held - t == held {
      forall k | k in t ensures k !in held {
        assert k !in held - t;
      }
    }
  }

  /** The timestamp is shared: after a press of `a` and then a press of a
      timed macro `b`, a release of `a` is a tap exactly when it comes soon
      enough after `b`'s press, however long `a` itself was held. */
  lemma SharedTimerCrossTalk(timer: uint16, a: uint8, b: uint8, t1: uint16, t2: uint16, t3: uint16)
    requires IsTimed(a) && IsTimed(b)
    ensures var first := Dispatch(timer, true, a, t1);
            var second := Dispatch(first.timer, true, b, t2);
            var release := Dispatch(second.timer, false, a, t3);
            && release.timer == t2
            && release.events == [Unregister(Primary(a))] + if Elapsed(t3, t2) < KEY_TAP_SLOW then Tap(TapKeys(a)) else []
  {
  }

  /** Macros that share a modifier (the two braces share right shift, the two
      brackets left alt) interfere: after key-downs of `a` and then `b`, the
      key-up of `b` releases the shared modifier although `a` is still down. */
  lemma {:induction false} SharedModifierReleasedEarly(held: set<KeyCode>, timer: uint16, a: uint8, b: uint8, t1: uint16, t2: uint16, t3: uint16)
    requires IsTimed(a) && IsTimed(b) && Primary(a) == Primary(b)
    ensures var first := Dispatch(timer, true, a, t1);
            var second := Dispatch(first.timer, true, b, t2);
            var release := Dispatch(second.timer, false, b, t3);
            Primary(a) !in Apply(held, first.events + second.events + release.events)
  {
    var first := Dispatch(timer, true, a, t1);
    var second := Dispatch(first.timer, true, b, t2);
    ApplyConcat(held, first.events + second.events, Dispatch(second.timer, false, b, t3).events);
    ReleaseClearsTouched(Apply(held, first.events + second.events), second.timer, b, t3);
  }

  /** A concrete case: open brace pressed at 0 and held for 100 ticks, which is
      a hold, still types the brace because close bracket was pressed at 80. */
  lemma CrossTalkExample()
    ensures Elapsed(100, 0) >= KEY_TAP_SLOW
    ensures Dispatch(Dispatch(Dispatch(0, true, OBRACE, 0).timer, true, CBRACK, 80).timer, false, OBRACE, 100).events
            == [Unregister(RSFT), Register(RALT), Register(QUOTE), Unregister(QUOTE), Unregister(RALT)]
  {
  }

  /** A quick release of a brace or bracket macro releases right alt even when
      another key (such as MRALT) holds it. */
  lemma TapReleasesHeldRightAlt(held: set<KeyCode>, timer: uint16, id: uint8, now: uint16)
    requires id == OBRACE || id == CBRACE || id == OBRACK || id == CBRACK
    requires RALT in held
    requires Elapsed(now, timer) < KEY_TAP_SLOW
    ensures RALT !in Apply(held, Dispatch(timer, false, id, now).events)
  {
  }
}

/** Key codes, the register/unregister events the macros send to the firmware,
    and the firmware's set of held codes as the events leave it. */
module KeyCodes {

  /** The key codes the macros of this layout send. */
  datatype KeyCode = RSFT | LALT | RALT | QUOTE | BSLS | LBRACKET | RBRACKET | F12 | CAPSLOCK

  /** One call of the firmware's register_code or unregister_code. */
  datatype Event = Register(code: KeyCode) | Unregister(code: KeyCode)

  /** The codes an event sequence mentions. */
  function Mentioned(evs: seq<Event>): set<KeyCode> {
    set e | e in evs :: e.code
  }

  /** The held set after one event: register adds its code, unregister removes it. */
  function Step(held: set<KeyCode>, e: Event): set<KeyCode> {
    match e
    case Register(c) => held + {c}
    case Unregister(c) => held - {c}
  }

  /** The held set after a whole event sequence, applied in order. Codes the
      sequence never mentions keep their state, and the code of the last event
      is held exactly when that event registers it. */
  function Apply(held: set<KeyCode>, evs: seq<Event>): (r: set<KeyCode>)
    ensures r - Mentioned(evs) == held - Mentioned(evs)
    ensures evs != [] ==> (evs[|evs| - 1].code in r <==> evs[|evs| - 1].Register?)
    decreases |evs|
  {
    if evs == [] then held
    else
      assert Mentioned(evs) == {evs[0].code} + Mentioned(evs[1..]) by {
        assert forall e :: e in evs <==> e == evs[0] || e in evs[1..];
      }
      var next := Step(held, evs[0]);
      var r := Apply(next, evs[1..]);
      assert r - Mentioned(evs) == (r - Mentioned(evs[1..])) - {evs[0].code};
      assert next - Mentioned(evs) == (next - Mentioned(evs[1..])) - {evs[0].code};
      assert next - Mentioned(evs) == held - Mentioned(evs);
      r
  }

  /** Applying two sequences one after the other is applying their concatenation. */
  lemma {:induction false} ApplyConcat(held: set<KeyCode>, a: seq<Event>, b: seq<Event>)
    ensures Apply(held, a + b) == Apply(Apply(held, a), b)
    decreases |a|
  {
    if a != [] {
      assert (a + b)[1..] == a[1..] + b;
      ApplyConcat(Step(held, a[0]), a[1..], b);
    } else {
      assert a + b == b;
    }
  }

  /** Applying a single event is one step. */
  lemma ApplyOne(held: set<KeyCode>, e: Event)
    ensures Apply(held, [e]) == Step(held, e)
  {
    assert [e][1..] == [];
  }

  /** The press-and-release of a key combination: each key is pressed in
      order, then released in the reverse order (the first key pressed is the
      last released). */
  function Tap(keys: seq<KeyCode>): seq<Event>
    decreases |keys|
  {
    if keys == [] then [] else [Register(keys[0])] + Tap(keys[1..]) + [Unregister(keys[0])]
  }

  /** The press of each key, in order. */
  function Presses(keys: seq<KeyCode>): seq<Event>
    decreases |keys|
  {
    if keys == [] then [] else [Register(keys[0])] + Presses(keys[1..])
  }

  /** The release of each key, in order. */
  function Releases(keys: seq<KeyCode>): seq<Event>
    decreases |keys|
  {
    if keys == [] then [] else [Unregister(keys[0])] + Releases(keys[1..])
  }

  /** The elements of `s` in reverse order. */
  function Reverse<T>(s: seq<T>): seq<T>
    decreases |s|
  {
    if s == [] then [] else Reverse(s[1..]) + [s[0]]
  }

  /** Releasing two runs of keys is releasing the first run, then the second. */
  lemma {:induction false} ReleasesConcat(a: seq<KeyCode>, b: seq<KeyCode>)
    ensures Releases(a + b) == Releases(a) + Releases(b)
    decreases |a|
  {
    if a != [] {
      assert (a + b)[1..] == a[1..] + b;
      ReleasesConcat(a[1..], b);
    } else {
      assert a + b == b;
    }
  }

  /** A tap is all its presses in order followed by all its releases in
      reverse order. */
  lemma {:induction false} TapIsNested(keys: seq<KeyCode>)
    ensures Tap(keys) == Presses(keys) + Releases(Reverse(keys))
    decreases |keys|
  {
    if keys != [] {
      TapIsNested(keys[1..]);
      ReleasesConcat(Reverse(keys[1..]), [keys[0]]);
    }
  }

  /** A tap leaves every key it pressed released and every other code as it was. */
  lemma {:induction false} TapReleasesItsKeys(held: set<KeyCode>, keys: seq<KeyCode>)
    ensures Apply(held, Tap(keys)) == held - set k | k in keys
    decreases |keys|
  {
    if keys != [] {
      var k := keys[0];
      var rest := [Register(k)] + Tap(keys[1..]);
      ApplyConcat(held, rest, [Unregister(k)]);
      ApplyConcat(held, [Register(k)], Tap(keys[1..]));
      TapReleasesItsKeys(held + {k}, keys[1..]);
      assert (set x | x in keys) == {k} + set x | x in keys[1..] by {
        assert forall x :: x in keys <==> x == k || x in keys[1..];
      }
    }
  }

  /** Holding modifier `p` and releasing it, optionally followed by a tap of
      `keys`: `p` and the tapped keys end up released and nothing else changes. */
  lemma {:induction false} HoldThenRelease(held: set<KeyCode>, p: KeyCode, tap: seq<KeyCode>)
    ensures Apply(held, [Register(p)] + ([Unregister(p)] + Tap(tap))) == held - {p} - set k | k in tap
  {
    ApplyConcat(held, [Register(p)], [Unregister(p)] + Tap(tap));
    ApplyOne(held, Register(p));
    ApplyConcat(held + {p}, [Unregister(p)], Tap(tap));
    ApplyOne(held + {p}, Unregister(p));
    assert held + {p} - {p} == held - {p};
    TapReleasesItsKeys(held - {p}, tap);
  }
}

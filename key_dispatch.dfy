/** The consumer side of `src/task/keyboard.rs`: `print_keypresses` feeds each scancode
    the stream yields to the keyboard decoder and maps every decoded key to one terminal
    action. The decoder belongs to a foreign crate and enters as two step functions on
    its own state; the mapping from keys to actions is total and stateless. */
module KeyDispatch {
  import opened Wrappers
  import opened RelayQueue

  /** The named keys the dispatcher tells apart; `Other` stands for every further key
      of the decoder's key set, carrying the name its `Debug` formatting prints. */
  datatype KeyCode =
    | Backspace | Delete | Tab
    | LShift | RShift | LControl | RControl | LAlt | RAltGr
    | ArrowUp | ArrowDown | ArrowLeft | ArrowRight
    | Escape | Home | PageUp | PageDown | CapsLock
    | Other(name: string)

  /** A decoded key: a character of the layout, or a key with no character. */
  datatype DecodedKey = Unicode(c: char) | RawKey(key: KeyCode)

  /** What the terminal is asked to do: print text, erase the last character, or nothing. */
  datatype Action = Print(text: string) | Erase | NoAction

  /** The characters and keys that erase: the backspace and delete control characters
      and the Backspace and Delete keys. */
  const EraseKeys: set<DecodedKey> :=
    {Unicode('\U{0008}'), Unicode('\U{007F}'), RawKey(Backspace), RawKey(Delete)}

  /** Modifier and navigation keys, silently consumed. */
  const SilentKeys: set<KeyCode> :=
    {LShift, RShift, LControl, RControl, LAlt, RAltGr,
     ArrowUp, ArrowDown, ArrowLeft, ArrowRight, Escape, Home, PageUp, PageDown, CapsLock}

  /** The `match` of `print_keypresses`: erase for the erase keys, nothing for the
      silent keys, four spaces for Tab, the character itself for any other character
      (including ESC, whose extra branch does nothing), and the key's name otherwise. */
  function Dispatch(key: DecodedKey): (a: Action)
    ensures a == Erase <==> key in EraseKeys
    ensures a == NoAction <==> key.RawKey? && key.key in SilentKeys
    ensures key.Unicode? && key !in EraseKeys ==> a == Print([key.c])
    ensures key == RawKey(Tab) ==> a == Print("    ")
    ensures key.RawKey? && key.key.Other? ==> a == Print(key.key.name)
  {
    match key
    case Unicode(c) =>
      if c != '\U{0008}' && c != '\U{007F}' then Print([c]) else Erase
    case RawKey(k) =>
      match k
      case Backspace => Erase
      case Delete => Erase
      case Tab => Print("    ")
      case LShift => NoAction
      case RShift => NoAction
      case LControl => NoAction
      case RControl => NoAction
      case LAlt => NoAction
      case RAltGr => NoAction
      case ArrowUp => NoAction
      case ArrowDown => NoAction
      case ArrowLeft => NoAction
      case ArrowRight => NoAction
      case Escape => NoAction
      case Home => NoAction
      case PageUp => NoAction
      case PageDown => NoAction
      case CapsLock => NoAction
      case Other(name) => Print(name)
  }

  /** The actions for a sequence of keys, one per key, in order. */
  function DispatchAll(keys: seq<DecodedKey>): (acts: seq<Action>)
    ensures |acts| == |keys|
    ensures forall i :: 0 <= i < |keys| ==> acts[i] == Dispatch(keys[i])
  {
    seq(|keys|, i requires 0 <= i < |keys| => Dispatch(keys[i]))
  }

  /** The decoder's state and the keys it has produced so far. */
  datatype Decoding<S> = Decoding(state: S, keys: seq<DecodedKey>)

  /** One scancode through the two guards of `print_keypresses`: `add_byte` may fail
      or produce no key event, and `process_keyevent` may turn the event into no key (a
      release, say); only a key that passes both reaches the dispatcher. Both steps may
      update the state; a failed or empty `add_byte` still keeps the state it left. */
  function DecodeByte<S, E, X>(addByte: (S, Scancode) -> (S, Result<Option<E>, X>),
                               processKeyEvent: (S, E) -> (S, Option<DecodedKey>),
                               s: S, b: Scancode): (S, Option<DecodedKey>)
  {
    var added := addByte(s, b);
    if added.1.Success? && added.1.value.Some? then processKeyEvent(added.0, added.1.value.value)
    else (added.0, None)
  }

  /** The keys a byte sequence decodes to, one byte after the other, from state `s`. */
  function DecodeAll<S, E, X>(addByte: (S, Scancode) -> (S, Result<Option<E>, X>),
                              processKeyEvent: (S, E) -> (S, Option<DecodedKey>),
                              s: S, bytes: seq<Scancode>): Decoding<S>
    decreases |bytes|
  {
    if bytes == [] then Decoding(s, [])
    else
      var before := DecodeAll(addByte, processKeyEvent, s, bytes[..|bytes| - 1]);
      var step := DecodeByte(addByte, processKeyEvent, before.state, bytes[|bytes| - 1]);
      Decoding(step.0, before.keys + (if step.1.Some? then [step.1.value] else []))
  }

  /** Each scancode yields at most one key. */
  lemma {:induction false} AtMostOneKeyPerByte<S, E, X>(addByte: (S, Scancode) -> (S, Result<Option<E>, X>),
                                                         processKeyEvent: (S, E) -> (S, Option<DecodedKey>),
                                                         s: S, bytes: seq<Scancode>)
    ensures |DecodeAll(addByte, processKeyEvent, s, bytes).keys| <= |bytes|
    decreases |bytes|
  {
    if bytes != [] {
      AtMostOneKeyPerByte(addByte, processKeyEvent, s, bytes[..|bytes| - 1]);
    }
  }

  /** Decoding is incremental: decoding `a + b` is decoding `a`, then decoding `b` from
      the state `a` left behind. Together with determinism of functions this is why a
      fixed byte sequence always yields the same keys, however the stream splits it. */
  lemma {:induction false} DecodeAllConcat<S, E, X>(addByte: (S, Scancode) -> (S, Result<Option<E>, X>),
                                                     processKeyEvent: (S, E) -> (S, Option<DecodedKey>),
                                                     s: S, a: seq<Scancode>, b: seq<Scancode>)
    ensures DecodeAll(addByte, processKeyEvent, s, a + b)
         == var first := DecodeAll(addByte, processKeyEvent, s, a);
            var second := DecodeAll(addByte, processKeyEvent, first.state, b);
            Decoding(second.state, first.keys + second.keys)
    decreases |b|
  {
    if b == [] {
      assert a + b == a;
    } else {
      var init := b[..|b| - 1];
      DecodeAllConcat(addByte, processKeyEvent, s, a, init);
      assert (a + b)[..|a + b| - 1] == a + init;
      assert (a + b)[|a + b| - 1] == b[|b| - 1];
    }
  }

  /** `print_keypresses` over the scancodes the stream yields (a finite prefix of an
      endless stream): each one is decoded, and each key that comes out is dispatched. */
  method PrintKeypresses<S, E, X>(addByte: (S, Scancode) -> (S, Result<Option<E>, X>),
                                  processKeyEvent: (S, E) -> (S, Option<DecodedKey>),
                                  keyboard: S, scancodes: seq<Scancode>)
    returns (out: seq<Action>)
    ensures out == DispatchAll(DecodeAll(addByte, processKeyEvent, keyboard, scancodes).keys)
  {
    // The loop body is `DecodeByte` written out, followed by `Dispatch`.
    var state := keyboard;
    out := [];
    var i := 0;
    while i < |scancodes|
      invariant 0 <= i <= |scancodes|
      invariant state == DecodeAll(addByte, processKeyEvent, keyboard, scancodes[..i]).state
      invariant out == DispatchAll(DecodeAll(addByte, processKeyEvent, keyboard, scancodes[..i]).keys)
    {
      var added := addByte(state, scancodes[i]);
      state := added.0;
      if added.1.Success? && added.1.value.Some? {
        var processed := processKeyEvent(state, added.1.value.value);
        state := processed.0;
        if processed.1.Some? {
          out := out + [Dispatch(processed.1.value)];
        }
      }
      assert scancodes[..i + 1][..i] == scancodes[..i];
      i := i + 1;
    }
    assert scancodes[..i] == scancodes;
  }
}

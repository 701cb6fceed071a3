/** The function button of ui/fyne/function.go: whatever pointers, touches, taps and keys do to it,
    it asks for presses and releases in alternation. */
module Buttons {

  /** The calls of a button, true for a press, starting with a press. */
  predicate Alternate(calls: seq<bool>) {
    forall i | 0 <= i < |calls| :: calls[i] == (i % 2 == 0)
  }

  class FunctionButton {
    var held: bool
    var suppressTap: bool
    /** The presses and releases asked for so far. */
    ghost var calls: seq<bool>

    ghost predicate Valid()
      reads this
    {
      Alternate(calls) && (held <==> |calls| % 2 == 1)
    }

    constructor ()
      ensures Valid() && calls == []
    {
      held, suppressTap, calls := false, false, [];
    }

    method Down(disabled: bool)
      requires Valid()
      modifies this
      ensures Valid() && calls == old(calls) + if disabled || old(held) then [] else [true]
      ensures held == (old(held) || !disabled)
    {
      if disabled || held {
        return;
      }
      held, suppressTap := true, true;
      calls := calls + [true];
    }

    method Up()
      requires Valid()
      modifies this
      ensures Valid() && !held && calls == old(calls) + if old(held) then [false] else []
    {
      if !held {
        return;
      }
      held := false;
      calls := calls + [false];
    }

    /** A tap that follows a press already counted adds nothing; any other, such as one from the
        keyboard, is a press with its release. */
    method Tapped(disabled: bool)
      requires Valid()
      modifies this
      ensures Valid() && !suppressTap
      ensures calls == old(calls) +
                if old(suppressTap) then []
                else if old(held) then [false]
                else if disabled then []
                else [true, false]
    {
      if suppressTap {
        suppressTap := false;
        return;
      }
      Down(disabled);
      Up();
      suppressTap := false;
    }

    method TypedKey(activates: bool, disabled: bool)
      requires Valid()
      modifies this
      ensures Valid()
      ensures calls == old(calls) +
                if !activates then []
                else if old(held) then [false]
                else if disabled then []
                else [true, false]
    {
      if activates {
        suppressTap := false;
        Tapped(disabled);
      }
    }
  }

  /** In such a sequence every press is followed by its release, if by anything, and nothing is
      released that was not pressed just before. */
  lemma PressThenRelease(calls: seq<bool>, i: nat)
    requires Alternate(calls) && i < |calls|
    ensures calls[i] && i + 1 < |calls| ==> !calls[i + 1]
    ensures !calls[i] ==> i > 0 && calls[i - 1]
  {
  }
}

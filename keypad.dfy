/** The on-screen PIN keypad: what one button press does to the PIN field. */
module Keypad {
  import opened Wrappers

  /** The keypad stops adding digits once the field holds this many. */
  const MaxPinLength: nat := 6

  /** A keypad button, by its `data-action` and `data-number` attributes
      (either may be missing). */
  datatype Button = Button(action: Option<string>, number: Option<string>)

  const ClearButton: Button := Button(Some("clear"), None)

  function DigitButton(digit: char): Button {
    Button(None, Some([digit]))
  }

  /** The click handler: 'clear' drops the last character, 'delete' empties
      the field, and a button with a (non-empty) number appends it while the
      field holds fewer than six characters; anything else changes nothing. */
  function Press(input: string, b: Button): (r: string)
    ensures b.action == Some("clear") ==> r == input[..|input| - 1 + (if input == [] then 1 else 0)]
    ensures b.action == Some("delete") ==> r == []
    ensures b.action != Some("clear") && b.action != Some("delete") ==>
      (r != input <==> |input| < MaxPinLength && b.number.Some? && b.number.value != [])
    ensures b.action != Some("clear") && b.action != Some("delete") && r != input ==>
      r == input + b.number.value
  {
    if b.action == Some("clear") then
      if input == [] then [] else input[..|input| - 1]
    else if b.action == Some("delete") then []
    else if b.number.Some? && b.number.value != [] && |input| < MaxPinLength then
      input + b.number.value
    else input
  }

  /** The field after a run of button presses, first press first. */
  function PressAll(input: string, buttons: seq<Button>): string
    decreases |buttons|
  {
    if buttons == [] then input else PressAll(Press(input, buttons[0]), buttons[1..])
  }

  /** Buttons whose numbers are single digits. */
  predicate SingleDigits(buttons: seq<Button>) {
    forall k :: 0 <= k < |buttons| && buttons[k].number.Some? ==> |buttons[k].number.value| <= 1
  }

  /** With single-digit buttons no run of presses starting from at most six
      characters ends with more than six. */
  lemma {:induction false} PressesKeepBound(input: string, buttons: seq<Button>)
    requires |input| <= MaxPinLength && SingleDigits(buttons)
    ensures |PressAll(input, buttons)| <= MaxPinLength
    decreases |buttons|
  {
    if buttons != [] {
      var next := Press(input, buttons[0]);
      assert |next| <= MaxPinLength;
      assert SingleDigits(buttons[1..]) by {
        forall k | 0 <= k < |buttons[1..]| && buttons[1..][k].number.Some?
          ensures |buttons[1..][k].number.value| <= 1
        {
          assert buttons[1..][k] == buttons[k + 1];
        }
      }
      PressesKeepBound(next, buttons[1..]);
    }
  }

  /** 'clear' takes back the digit just typed. */
  lemma ClearUndoesDigit(input: string, digit: char)
    requires |input| < MaxPinLength
    ensures Press(Press(input, DigitButton(digit)), ClearButton) == input
  {
    assert (input + [digit])[..|input|] == input;
  }

  /** Starting from an empty field, typing digits on the keypad alone can
      produce a PIN of at most six characters. */
  lemma KeypadPinsAreShort(digits: seq<char>)
    ensures |PressAll([], seq(|digits|, k requires 0 <= k < |digits| => DigitButton(digits[k])))| <= MaxPinLength
  {
    var buttons := seq(|digits|, k requires 0 <= k < |digits| => DigitButton(digits[k]));
    PressesKeepBound([], buttons);
  }
}

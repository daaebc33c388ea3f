/**
 * The calculator disguise of stealth mode (ui/features/stealth/CalculatorScreen.kt):
 * a display string edited by sixteen keys; "=" on the display "1234"
 * unlocks the app.
 */
module Calculator {

  /** The key labels, row by row. */
  const Keys: seq<string> := ["7", "8", "9", "/", "4", "5", "6", "x", "1", "2", "3", "-", "C", "0", "=", "+"]

  const InitialInput: string := "0"
  const ErrorInput: string := "Error"
  const UnlockCode: string := "1234"

  /** The display after a key, and whether that key unlocked. */
  datatype PressResult = PressResult(input: string, unlocked: bool)

  /** The click handler's `when (key)`. */
  function Press(input: string, key: string): (r: PressResult)
    ensures r.unlocked <==> key == "=" && input == UnlockCode
  {
    if key == "C" then PressResult(InitialInput, false)
    else if key == "=" then
      if input == UnlockCode then PressResult(input, true) else PressResult(ErrorInput, false)
    else if input == InitialInput || input == ErrorInput then PressResult(key, false)
    else PressResult(input + key, false)
  }

  /** A run of key presses: the final display, and whether any press unlocked. */
  function Run(input: string, keys: seq<string>): (r: PressResult)
    decreases |keys|
  {
    if keys == [] then PressResult(input, false)
    else
      var p := Press(input, keys[0]);
      var rest := Run(p.input, keys[1..]);
      PressResult(rest.input, p.unlocked || rest.unlocked)
  }

  /** Every key label is non-empty, so no press empties the display. */
  lemma PressNeverEmpties(input: string, key: string)
    requires key in Keys
    ensures Press(input, key).input != ""
  {
  }

  lemma {:induction false} RunNeverEmpties(input: string, keys: seq<string>)
    requires input != ""
    requires forall i :: 0 <= i < |keys| ==> keys[i] in Keys
    ensures Run(input, keys).input != ""
    decreases |keys|
  {
    if keys != [] {
      PressNeverEmpties(input, keys[0]);
      RunNeverEmpties(Press(input, keys[0]).input, keys[1..]);
    }
  }

  /** "=" unlocks exactly on "1234" and then leaves the display as it is; otherwise it shows "Error". */
  lemma EqualsKey(input: string)
    ensures Press(input, "=") == if input == UnlockCode then PressResult(input, true) else PressResult(ErrorInput, false)
  {
  }

  /** Any other key replaces "0" and "Error" and is appended to anything else, operators included. */
  lemma OtherKeys(input: string, key: string)
    requires key != "C" && key != "="
    ensures Press(input, key).input == if input == "0" || input == "Error" then key else input + key
    ensures !Press(input, key).unlocked
  {
  }

  /** From any display, C 1 2 3 4 = unlocks. */
  lemma ClearAndCodeUnlock(input: string)
    ensures Run(input, ["C", "1", "2", "3", "4", "="]).unlocked
  {
    var keys := ["C", "1", "2", "3", "4", "="];
    assert keys[1..] == ["1", "2", "3", "4", "="];
    assert keys[1..][1..] == ["2", "3", "4", "="];
    assert keys[1..][1..][1..] == ["3", "4", "="];
    assert keys[1..][1..][1..][1..] == ["4", "="];
    assert keys[1..][1..][1..][1..][1..] == ["="];
    assert Press(Press(Press(Press(Press(input, "C").input, "1").input, "2").input, "3").input, "4").input == "1234";
  }

  /** An operator in the code spoils it: "12+34=" shows "Error". */
  lemma OperatorsSpoilTheCode()
    ensures Run("0", ["1", "2", "+", "3", "4", "="]) == PressResult("Error", false)
  {
    var keys := ["1", "2", "+", "3", "4", "="];
    assert keys[1..] == ["2", "+", "3", "4", "="];
    assert keys[1..][1..] == ["+", "3", "4", "="];
    assert keys[1..][1..][1..] == ["3", "4", "="];
    assert keys[1..][1..][1..][1..] == ["4", "="];
    assert keys[1..][1..][1..][1..][1..] == ["="];
  }

  class CalculatorState {
    var input: string

    constructor ()
      ensures input == "0"
    {
      input := InitialInput;
    }

    /** A key's `clickable`; `unlock` is the call of `onUnlock`. */
    method OnClick(key: string) returns (unlock: bool)
      modifies this
      ensures PressResult(input, unlock) == Press(old(input), key)
    {
      unlock := false;
      if key == "C" {
        input := InitialInput;
      } else if key == "=" {
        if input == UnlockCode {
          unlock := true;
        } else {
          input := ErrorInput;
        }
      } else {
        if input == InitialInput || input == ErrorInput {
          input := key;
        } else {
          input := input + key;
        }
      }
    }
  }
}

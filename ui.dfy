/// src/app/ui.rs: the validation of the three coordinate equations typed in
/// the control window, and the error pop-up it opens.
module EquationUi {
  import opened Results
  import opened Expressions

  predicate IsCoordinateName(v: string)
  {
    v == "x" || v == "y" || v == "z"
  }

  /** The first variable, in the engine's order, that is not x, y or z. */
  function FirstInvalidVar(vars: seq<string>): (r: Option<string>)
    ensures r.None? <==> forall i :: 0 <= i < |vars| ==> IsCoordinateName(vars[i])
    ensures r.Some? ==> exists i :: (0 <= i < |vars| && vars[i] == r.value && !IsCoordinateName(vars[i])
      && forall j :: 0 <= j < i ==> IsCoordinateName(vars[j]))
    decreases |vars|
  {
    if vars == [] then None
    else if !IsCoordinateName(vars[0]) then Some(vars[0])
    else
      var r := FirstInvalidVar(vars[1..]);
      assert r.Some? ==> exists i :: (0 <= i < |vars| && vars[i] == r.value && !IsCoordinateName(vars[i])
        && forall j :: 0 <= j < i ==> IsCoordinateName(vars[j])) by {
        if r.Some? {
          var i :| 0 <= i < |vars[1..]| && vars[1..][i] == r.value && !IsCoordinateName(vars[1..][i])
            && forall j :: 0 <= j < i ==> IsCoordinateName(vars[1..][j]);
          assert vars[i + 1] == r.value;
          forall j | 0 <= j < i + 1 ensures IsCoordinateName(vars[j]) {
            if j > 0 {
              assert vars[j] == vars[1..][j - 1];
            }
          }
        }
      }
      r
  }

  /** `check_eq_validity`: an empty text, a text the engine cannot parse (its
      message follows "Invalid equation: ") and a formula with a variable other
      than x, y and z (the first such is named) are rejected; otherwise the
      parsed formula is returned. */
  function CheckEqValidity(eq: string, parse: string -> Result<Formula>): (r: Result<Formula>)
    ensures r.Ok? <==> eq != [] && parse(eq).Ok? && forall i :: 0 <= i < |parse(eq).value.vars| ==>
      IsCoordinateName(parse(eq).value.vars[i])
    ensures r.Ok? ==> r.value == parse(eq).value
    ensures eq == [] ==> r == Err("Equation cannot be empty")
    ensures eq != [] && parse(eq).Err? ==> r == Err("Invalid equation: " + parse(eq).error)
  {
    if eq == [] then Err("Equation cannot be empty")
    else
      match parse(eq)
      case Err(e) => Err("Invalid equation: " + e)
      case Ok(formal) =>
        match FirstInvalidVar(formal.vars)
        case Some(v) => Err("Invalid variable '" + v + "' in equation. Only 'x', 'y', and 'z' are allowed.")
        case None => Ok(formal)
  }

  /** A rejected formula names a variable it really uses, and the first one
      in its order that is not a coordinate. */
  lemma {:induction false} RejectedVariable(eq: string, parse: string -> Result<Formula>)
    requires eq != [] && parse(eq).Ok? && CheckEqValidity(eq, parse).Err?
    ensures exists i :: (0 <= i < |parse(eq).value.vars|
      && CheckEqValidity(eq, parse).error ==
           "Invalid variable '" + parse(eq).value.vars[i] + "' in equation. Only 'x', 'y', and 'z' are allowed."
      && !IsCoordinateName(parse(eq).value.vars[i])
      && forall j :: 0 <= j < i ==> IsCoordinateName(parse(eq).value.vars[j]))
  {
    var vars := parse(eq).value.vars;
    var v := FirstInvalidVar(vars);
    assert v.Some?;
    var i :| 0 <= i < |vars| && vars[i] == v.value && !IsCoordinateName(vars[i])
      && forall j :: 0 <= j < i ==> IsCoordinateName(vars[j]);
    assert CheckEqValidity(eq, parse).error ==
      "Invalid variable '" + vars[i] + "' in equation. Only 'x', 'y', and 'z' are allowed.";
  }

  /** `res.err().unwrap_or("No Error here")`. */
  function ErrOr(r: Result<Formula>): string
  {
    if r.Err? then r.error else "No Error here"
  }

  const POPUP_HEADER: string := "Error in equation(s): \nEquation x: "

  /** The pop-up text: the escaped line break of the format string drops the
      break and the next line's indentation, so the header runs straight into
      "\nEquation x: ". */
  function PopupMessage(ex: string, ey: string, ez: string): string
  {
    POPUP_HEADER + ex + " \nEquation y: " + ey + "\nEquation z: " + ez
  }

  /** Each equation's verdict stands at a fixed place in the pop-up text,
      right after its label. */
  lemma PopupFields(ex: string, ey: string, ez: string)
    ensures var m := PopupMessage(ex, ey, ez);
      var ix := |POPUP_HEADER|;
      var iy := ix + |ex| + |" \nEquation y: "|;
      var iz := iy + |ey| + |"\nEquation z: "|;
      && |m| == iz + |ez|
      && m[ix..ix + |ex|] == ex
      && m[iy..iy + |ey|] == ey
      && m[iz..] == ez
  {
  }

  class ControlApp {
    var errorPopup: Option<string>

    constructor ()
      ensures errorPopup == None
    {
      errorPopup := None;
    }

    /** The Apply button: all three equations valid leaves the pop-up as it
        was; otherwise the pop-up opens with every equation's verdict. */
    method Apply(eqX: string, eqY: string, eqZ: string, parse: string -> Result<Formula>)
      modifies this
      ensures var rx, ry, rz := CheckEqValidity(eqX, parse), CheckEqValidity(eqY, parse), CheckEqValidity(eqZ, parse);
        if rx.Ok? && ry.Ok? && rz.Ok? then errorPopup == old(errorPopup)
        else errorPopup == Some(PopupMessage(ErrOr(rx), ErrOr(ry), ErrOr(rz)))
    {
      var resX := CheckEqValidity(eqX, parse);
      var resY := CheckEqValidity(eqY, parse);
      var resZ := CheckEqValidity(eqZ, parse);
      if resX.Ok? && resY.Ok? && resZ.Ok? {
        // The changes would be applied to the grid here.
      } else {
        var msg := POPUP_HEADER + ErrOr(resX) + " \nEquation y: " + ErrOr(resY) + "\nEquation z: " + ErrOr(resZ);
        errorPopup := Some(msg);
      }
    }

    /** One frame of the pop-up window: it closes when the window's open flag
        went false or Close was clicked; with no pop-up nothing happens. */
    method ShowPopup(open: bool, closeNow: bool)
      modifies this
      ensures errorPopup == if old(errorPopup).Some? && (!open || closeNow) then None else old(errorPopup)
    {
      if errorPopup.Some? {
        if !open || closeNow {
          errorPopup := None;
        }
      }
    }
  }

  /** Apply with one invalid equation opens the pop-up; closing it clears it. */
  method ApplyThenClose(app: ControlApp, eqX: string, eqY: string, eqZ: string, parse: string -> Result<Formula>)
    requires eqX == []
    modifies app
    ensures app.errorPopup == None
  {
    app.Apply(eqX, eqY, eqZ, parse);
    assert app.errorPopup.Some?;
    app.ShowPopup(true, true);
  }
}

/** The mode-selection screen: four buttons, one per practice mode. */
module Menu {
  import opened Common
  import opened Geometry
  import opened Modes

  const ButtonWidth: int := 200
  const ButtonHeight: int := 100
  const ButtonSpacing: int := 30

  /** The four buttons of the menu, basic modes on the top row, advanced modes below. */
  datatype ModeSelection = ModeSelection(
    basicAddition: Rect,
    basicSubtraction: Rect,
    advancedAddition: Rect,
    advancedSubtraction: Rect)
  {
    /** The button that selects mode `m`. */
    function Button(m: Mode): (button: Rect) {
      match m
      case Mode(Basic, Addition) => basicAddition
      case Mode(Basic, Subtraction) => basicSubtraction
      case Mode(Advanced, Addition) => advancedAddition
      case Mode(Advanced, Subtraction) => advancedSubtraction
    }

    /** No two buttons share a point. */
    ghost predicate ButtonsDisjoint() {
      && Disjoint(basicAddition, basicSubtraction)
      && Disjoint(basicAddition, advancedAddition)
      && Disjoint(basicAddition, advancedSubtraction)
      && Disjoint(basicSubtraction, advancedAddition)
      && Disjoint(basicSubtraction, advancedSubtraction)
      && Disjoint(advancedAddition, advancedSubtraction)
    }

    /** The mode whose button was clicked, the buttons checked in the order basic addition,
        basic subtraction, advanced addition, advanced subtraction; None when the click
        misses every button. */
    function HandleClick(px: int, py: int): (r: Option<Mode>)
      ensures r.Some? ==> Button(r.value).Contains(px, py)
      ensures r.None? <==> forall m: Mode :: !Button(m).Contains(px, py)
    {
      if basicAddition.Contains(px, py) then Some(Mode(Basic, Addition))
      else if basicSubtraction.Contains(px, py) then Some(Mode(Basic, Subtraction))
      else if advancedAddition.Contains(px, py) then Some(Mode(Advanced, Addition))
      else if advancedSubtraction.Contains(px, py) then Some(Mode(Advanced, Subtraction))
      else None
    }
  }

  /** The layout built by the menu's initialiser: two rows of two buttons, centred
      horizontally, the rows at heights 200 and 350. */
  function NewModeSelection(): (ms: ModeSelection)
    ensures ms.ButtonsDisjoint()
    ensures forall m: Mode :: ms.Button(m).InWindow()
    ensures forall m: Mode :: ms.Button(m).w == ButtonWidth && ms.Button(m).h == ButtonHeight
  {
    var totalWidth := ButtonWidth * 2 + ButtonSpacing;
    var startX := (WindowWidth - totalWidth) / 2;
    ModeSelection(
      Rect(startX, 200, ButtonWidth, ButtonHeight),
      Rect(startX + ButtonWidth + ButtonSpacing, 200, ButtonWidth, ButtonHeight),
      Rect(startX, 350, ButtonWidth, ButtonHeight),
      Rect(startX + ButtonWidth + ButtonSpacing, 350, ButtonWidth, ButtonHeight))
  }

  /** With disjoint buttons a click selects mode `m` exactly when it lands on m's button,
      so at most one mode is ever returned. */
  lemma HandleClickSelectsContainingButton(ms: ModeSelection, m: Mode, px: int, py: int)
    requires ms.ButtonsDisjoint()
    ensures ms.HandleClick(px, py) == Some(m) <==> ms.Button(m).Contains(px, py)
  {
  }
}

/** The language buttons: a click leaves exactly the clicked button active. */
module LanguageSwitcher {
  import Marks

  /** The `.lang-btn` elements' `active` flags. */
  class LanguageBar {
    const buttons: array<bool>

    constructor (markup: seq<bool>)
      ensures buttons[..] == markup && fresh(buttons)
    {
      buttons := new bool[|markup|](i requires 0 <= i < |markup| => markup[i]);
    }

    /** A button's click handler: remove `active` from every button, then add it to the clicked one. */
    method Clicked(k: nat)
      requires k < buttons.Length
      modifies buttons
      ensures forall i :: 0 <= i < buttons.Length ==> buttons[i] == (i == k)
      ensures Marks.Count(buttons[..]) == 1
    {
      var i := 0;
      while i < buttons.Length
        invariant 0 <= i <= buttons.Length
        invariant forall j :: 0 <= j < i ==> !buttons[j]
      {
        buttons[i] := false;
        i := i + 1;
      }
      buttons[k] := true;
      Marks.CountOnlyAt(buttons[..], k);
    }
  }
}

// The enhanced page script: the typing animation in the hero, the navbar
// scroll state and active-section highlighting, form validation
// bookkeeping and the theme system.

module EnhancedMain {
  import Navbar
  import Theme

  // ---------------------------------------------------------------------
  // Typing animation
  // ---------------------------------------------------------------------

  const Texts: seq<string> := ["Full Stack Developer", "Graphic Designer", "UI/UX Designer", "WordPress Expert"]

  /** The animation's three variables. */
  datatype Typing = Typing(textIndex: int, charIndex: int, deleting: bool)

  /** Between two steps the index names a text, and the cursor sits strictly
      inside it in the direction of travel: typing never starts at the full
      length, deleting never starts at zero. */
  predicate TypingValid(t: Typing)
  {
    && 0 <= t.textIndex < |Texts|
    && (t.deleting ==> 0 < t.charIndex <= |Texts[t.textIndex]|)
    && (!t.deleting ==> 0 <= t.charIndex < |Texts[t.textIndex]|)
  }

  /** What one call of `type()` produces: the next state, the text shown
      and the delay before the next call. */
  datatype Frame = Frame(next: Typing, shown: string, delay: int)

  /** One call of `type()`. */
  function Step(t: Typing): (r: Frame)
    requires TypingValid(t)
  {
    var text := Texts[t.textIndex];
    var charIndex := if t.deleting then t.charIndex - 1 else t.charIndex + 1;
    var shown := text[..charIndex];
    if !t.deleting && charIndex == |text| then Frame(Typing(t.textIndex, charIndex, true), shown, 2000)
    else if t.deleting && charIndex == 0 then Frame(Typing((t.textIndex + 1) % |Texts|, 0, false), shown, 500)
    else Frame(Typing(t.textIndex, charIndex, t.deleting), shown, if t.deleting then 50 else 100)
  }

  /** Each step keeps the state valid and shows exactly the first
      `charIndex` characters of the current text. */
  lemma StepKeepsValid(t: Typing)
    requires TypingValid(t)
    ensures TypingValid(Step(t).next)
    ensures Step(t).shown == Texts[Step(t).next.textIndex][..Step(t).next.charIndex]
  {
  }

  /** The direction flips to deleting exactly when the text is complete
      (after a 2000 ms pause), back to typing the next text exactly when it
      is empty (after 500 ms); otherwise the delay is 100 ms typing and 50 ms
      deleting. */
  lemma StepDelays(t: Typing)
    requires TypingValid(t)
    ensures var f := Step(t);
      && (f.delay == 2000 <==> !t.deleting && f.next.deleting)
      && (f.delay == 2000 ==> f.next.charIndex == |Texts[t.textIndex]|)
      && (f.delay == 500 <==> t.deleting && !f.next.deleting)
      && (f.delay == 500 ==> f.next.textIndex == (t.textIndex + 1) % |Texts| && f.next.charIndex == 0)
      && (f.next.deleting == t.deleting ==> f.delay == if t.deleting then 50 else 100)
      && (f.next.deleting == t.deleting ==> f.next.textIndex == t.textIndex)
  {
  }

  /** `n` steps in a row. */
  function Steps(t: Typing, n: nat): (r: Typing)
    requires TypingValid(t)
    ensures TypingValid(r)
    decreases n
  {
    if n == 0 then t
    else
      StepKeepsValid(t);
      Steps(Step(t).next, n - 1)
  }

  lemma {:induction false} StepsAdd(t: Typing, a: nat, b: nat)
    requires TypingValid(t)
    ensures Steps(t, a + b) == Steps(Steps(t, a), b)
    decreases a
  {
    if a > 0 {
      StepKeepsValid(t);
      StepsAdd(Step(t).next, a - 1, b);
    }
  }

  /** Typing from `k` reaches the full text and turns to deleting. */
  lemma {:induction false} TypingPhase(i: int, k: int)
    requires 0 <= i < |Texts| && 0 <= k < |Texts[i]|
    ensures Steps(Typing(i, k, false), |Texts[i]| - k) == Typing(i, |Texts[i]|, true)
    decreases |Texts[i]| - k
  {
    if k + 1 < |Texts[i]| {
      TypingPhase(i, k + 1);
    }
  }

  /** Deleting from `k` empties the text and moves to the next one. */
  lemma {:induction false} DeletingPhase(i: int, k: int)
    requires 0 <= i < |Texts| && 0 < k <= |Texts[i]|
    ensures Steps(Typing(i, k, true), k) == Typing((i + 1) % |Texts|, 0, false)
  {
    if k > 1 {
      DeletingPhase(i, k - 1);
    }
  }

  /** A whole cycle: twice a text's length in steps types it out, deletes
      it, and leaves the animation at the start of the next text. */
  lemma Cycle(i: int)
    requires 0 <= i < |Texts|
    ensures Steps(Typing(i, 0, false), 2 * |Texts[i]|) == Typing((i + 1) % |Texts|, 0, false)
  {
    var n := |Texts[i]|;
    StepsAdd(Typing(i, 0, false), n, n);
    TypingPhase(i, 0);
    DeletingPhase(i, n);
  }

  /** The `.typing-text` element and the animation's variables. */
  class Typewriter {
    var textIndex: int
    var charIndex: int
    var deleting: bool
    var shown: string

    function State(): Typing
      reads this
    {
      Typing(textIndex, charIndex, deleting)
    }

    ghost predicate Valid()
      reads this
    {
      TypingValid(State()) && shown == Texts[textIndex][..charIndex]
    }

    /** `initTypingAnimation()`, which runs the first step at once. */
    constructor ()
      ensures Valid() && State() == Step(Typing(0, 0, false)).next
    {
      textIndex, charIndex, deleting, shown := 0, 0, false, "";
      new;
      var _ := Type();
    }

    /** `type()`: one step, answering the delay before the next. */
    method Type() returns (delay: int)
      requires TypingValid(State())
      modifies this
      ensures Valid()
      ensures Frame(State(), shown, delay) == Step(old(State()))
    {
      StepKeepsValid(State());
      var text := Texts[textIndex];
      if deleting {
        shown := text[..charIndex - 1];
        charIndex := charIndex - 1;
      } else {
        shown := text[..charIndex + 1];
        charIndex := charIndex + 1;
      }
      delay := if deleting then 50 else 100;
      if !deleting && charIndex == |text| {
        delay := 2000;
        deleting := true;
      } else if deleting && charIndex == 0 {
        deleting := false;
        textIndex := (textIndex + 1) % |Texts|;
        delay := 500;
      }
    }
  }

  // ---------------------------------------------------------------------
  // Navbar
  // ---------------------------------------------------------------------

  /** `new EnhancedNavbar()`: the navbar hides past 200 pixels. */
  method SetupNavbar(scrollY: real) returns (navbar: Navbar.ScrollNavbar)
    ensures fresh(navbar) && navbar.Valid()
    ensures navbar.hideAbove == 200.0 && navbar.lastScrollY == scrollY
  {
    navbar := new Navbar.ScrollNavbar(200.0, scrollY);
  }

  /** A `section[id]` element and the top of its bounding box. */
  datatype Section = Section(id: string, top: real)

  /** The id of the last section whose top is at most 100 pixels from the
      viewport's top, or the empty string when there is none. */
  function ActiveSection(sections: seq<Section>): (r: string)
    ensures (forall i :: 0 <= i < |sections| ==> sections[i].top > 100.0) ==> r == ""
    ensures (exists i :: 0 <= i < |sections| && sections[i].top <= 100.0) ==>
      exists i :: 0 <= i < |sections| && sections[i].top <= 100.0 && sections[i].id == r
        && forall j :: i < j < |sections| ==> sections[j].top > 100.0
  {
    if sections == [] then ""
    else
      var last := |sections| - 1;
      if sections[last].top <= 100.0 then sections[last].id
      else
        var r := ActiveSection(sections[..last]);
        assert forall i :: 0 <= i < last ==> sections[..last][i] == sections[i];
        r
  }

  /** The throttled scroll handler of `highlightActiveSection`: exactly the
      links pointing at the active section are marked active. */
  method HighlightActiveSection(sections: seq<Section>, hrefs: seq<string>, active: array<bool>)
    returns (current: string)
    requires active.Length == |hrefs|
    modifies active
    ensures current == ActiveSection(sections)
    ensures forall i :: 0 <= i < active.Length ==> active[i] == (hrefs[i] == "#" + current)
  {
    current := "";
    for i := 0 to |sections|
      invariant current == ActiveSection(sections[..i])
    {
      assert sections[..i + 1][..i] == sections[..i];
      if sections[i].top <= 100.0 {
        current := sections[i].id;
      }
    }
    assert sections[..|sections|] == sections;
    for i := 0 to active.Length
      invariant forall j :: 0 <= j < i ==> active[j] == (hrefs[j] == "#" + current)
    {
      active[i] := false;
      if hrefs[i] == "#" + current {
        active[i] := true;
      }
    }
  }

  // ---------------------------------------------------------------------
  // Form validation
  // ---------------------------------------------------------------------

  /** A required field: whether its value passes the browser's checks, the
      browser's message, whether it carries the `error` class, and the
      `.error-message` elements in its parent, first to last. */
  datatype Field = Field(valid: bool, validationMessage: string, errorClass: bool, errors: seq<string>)

  /** `validateField(field)`. An invalid field gets the class and, when
      there is none yet, one message; a valid one loses the class and its
      first message. */
  function Validated(f: Field): (r: Field)
    ensures r.valid == f.valid && r.validationMessage == f.validationMessage
    ensures r.errorClass <==> !f.valid
    ensures !f.valid ==> r.errors != [] && (f.errors == [] ==> r.errors == [f.validationMessage])
    ensures !f.valid && f.errors != [] ==> r.errors == f.errors
    ensures |f.errors| <= 1 ==> |r.errors| <= 1 && (r.errors == [] <==> f.valid)
  {
    if !f.valid then
      f.(errorClass := true, errors := if f.errors == [] then [f.validationMessage] else f.errors)
    else
      f.(errorClass := false, errors := if f.errors == [] then [] else f.errors[1..])
  }

  /** Validating a field with at most one message twice is validating it
      once. */
  lemma ValidatedIdempotent(f: Field)
    requires |f.errors| <= 1
    ensures Validated(Validated(f)) == Validated(f)
  {
  }

  /** The enhanced contact form's required fields. */
  class EnhancedForm {
    const fields: array<Field>

    /** Each field shows at most one message. */
    ghost predicate Valid()
      reads fields
    {
      forall i :: 0 <= i < fields.Length ==> |fields[i].errors| <= 1
    }

    constructor (initial: seq<Field>)
      requires forall i :: 0 <= i < |initial| ==> |initial[i].errors| <= 1
      ensures Valid() && fields[..] == initial && fresh(fields)
    {
      fields := new Field[|initial|](i requires 0 <= i < |initial| => initial[i]);
    }

    /** The `blur` listener of field `i`. */
    method Blur(i: int)
      requires Valid() && 0 <= i < fields.Length
      modifies fields
      ensures Valid()
      ensures fields[..] == old(fields[..])[i := Validated(old(fields[i]))]
    {
      fields[i] := Validated(fields[i]);
    }

    /** The `submit` listener: every field is validated, none skipped, and
        the form is sent exactly when all of them are valid. */
    method HandleSubmit() returns (submitted: bool)
      requires Valid()
      modifies fields
      ensures Valid()
      ensures forall i :: 0 <= i < fields.Length ==> fields[i] == Validated(old(fields[i]))
      ensures submitted <==> forall i :: 0 <= i < fields.Length ==> old(fields[i]).valid
    {
      var isFormValid := true;
      for i := 0 to fields.Length
        invariant forall j :: 0 <= j < i ==> fields[j] == Validated(old(fields[j]))
        invariant forall j :: i <= j < fields.Length ==> fields[j] == old(fields[j])
        invariant isFormValid <==> forall j :: 0 <= j < i ==> old(fields[j]).valid
      {
        fields[i] := Validated(fields[i]);
        if !fields[i].valid {
          isFormValid := false;
        }
      }
      submitted := isFormValid;
    }
  }

  // ---------------------------------------------------------------------
  // Theme system
  // ---------------------------------------------------------------------

  /** The icon class the theme button should show. */
  function IconFor(theme: string): (r: string)
    ensures r == "fas fa-sun" <==> theme == Theme.Dark
    ensures r == "fas fa-sun" || r == "fas fa-moon"
  {
    if theme == Theme.Dark then "fas fa-sun" else "fas fa-moon"
  }

  /** The icon the button's markup starts with. */
  const MarkupIcon := "fas fa-moon"

  /** `ThemeSystem`: the current theme, the document's `data-theme`, the
      stored preference and the icon of the button it creates (the only
      `.theme-toggle` element on the page). */
  class ThemeSystem {
    var currentTheme: string
    var documentTheme: string
    var stored: string
    var icon: string

    ghost predicate Valid()
      reads this
    {
      documentTheme == currentTheme && icon == IconFor(currentTheme)
    }

    /** The constructor as written: `applyTheme` runs before the button
        exists, so the button keeps the moon icon whatever the theme. */
    constructor AsWritten(stored: string)
      ensures currentTheme == Theme.Saved(stored) && documentTheme == currentTheme
      ensures icon == MarkupIcon && this.stored == stored
    {
      currentTheme := Theme.Saved(stored);
      documentTheme := Theme.Saved(stored);
      this.stored := stored;
      icon := MarkupIcon;
    }

    /** The constructor with the button created before the theme is
        applied, so the icon agrees with the theme from the start. */
    constructor (stored: string)
      ensures Valid() && currentTheme == Theme.Saved(stored) && this.stored == stored
    {
      currentTheme := Theme.Saved(stored);
      this.stored := stored;
      icon := MarkupIcon;
      documentTheme := Theme.Saved(stored);
      icon := IconFor(Theme.Saved(stored));
    }

    /** `toggleTheme()`: dark and light swap, the choice is stored, and the
        icon follows. */
    method ToggleTheme()
      modifies this
      ensures Valid()
      ensures currentTheme == Theme.Toggled(old(currentTheme)) && stored == currentTheme
    {
      currentTheme := Theme.Toggled(currentTheme);
      documentTheme := currentTheme;
      icon := IconFor(currentTheme);
      stored := currentTheme;
    }
  }

  /** With nothing stored the page starts dark, yet the constructor as
      written leaves the button showing the moon, the light-theme icon. */
  lemma InitialIconDisagrees()
    ensures Theme.Saved("") == Theme.Dark
    ensures MarkupIcon != IconFor(Theme.Saved(""))
  {
  }
}

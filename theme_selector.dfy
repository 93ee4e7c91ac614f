/** The `ThemeSelector` component of `src/components/theme-selector.tsx`: a
    current index into a list of themes, moved by previous/next buttons, each
    move reported to the `onSelectTheme` callback with the new theme's id. */
module ThemeSelector {
  import opened ThemeCycle

  datatype ThemeEntry = ThemeEntry(id: string, name: string, preview: string)

  /** `themes.findIndex(theme => theme.id === id)`: the first matching
      position, or -1 when no theme has that id. */
  function FindIndex(themes: seq<ThemeEntry>, id: string): (r: int)
    ensures -1 <= r < |themes|
    ensures r >= 0 ==> themes[r].id == id && forall k :: 0 <= k < r ==> themes[k].id != id
    ensures r == -1 <==> forall k :: 0 <= k < |themes| ==> themes[k].id != id
  {
    if themes == [] then -1
    else if themes[0].id == id then 0
    else
      var r := FindIndex(themes[1..], id);
      if r == -1 then -1 else r + 1
  }

  /** JavaScript's `x || 0` on a number: `x` unless it is falsy (0), so for an
      integer it never changes the value; in particular -1 is truthy. */
  function OrZero(x: int): (r: int)
    ensures r == x
  {
    if x != 0 then x else 0
  }

  /** The initial `currentIndex` as written: `findIndex(...) || 0`. */
  function InitialIndexAsWritten(themes: seq<ThemeEntry>, currentThemeId: string): (r: int)
    ensures r == FindIndex(themes, currentThemeId)
    ensures -1 <= r < |themes|
  {
    OrZero(FindIndex(themes, currentThemeId))
  }

  /** As written, an id that matches no theme leaves the index at -1, so the
      first render reads `themes[-1].name`, which is outside the list. */
  lemma AsWrittenUnknownIdIsOutOfRange(themes: seq<ThemeEntry>, currentThemeId: string)
    requires forall k :: 0 <= k < |themes| ==> themes[k].id != currentThemeId
    ensures InitialIndexAsWritten(themes, currentThemeId) == -1
    ensures !(0 <= InitialIndexAsWritten(themes, currentThemeId) < |themes|)
  {
  }

  /** A concrete case: the two themes of the application and the id "retro". */
  lemma AsWrittenRetroExample()
    ensures InitialIndexAsWritten(
              [ThemeEntry("cyberpunk", "Cyberpunk", "/images/cyberpunk-bg.png"),
               ThemeEntry("space", "Space", "/images/space-bg.png")], "retro") == -1
  {
    var themes := [ThemeEntry("cyberpunk", "Cyberpunk", "/images/cyberpunk-bg.png"),
                   ThemeEntry("space", "Space", "/images/space-bg.png")];
    assert themes[0].id != "retro" && themes[1].id != "retro";
    AsWrittenUnknownIdIsOutOfRange(themes, "retro");
  }

  /** The initial index as evidently intended: the matching theme, falling
      back to the first theme when no id matches. */
  function InitialIndex(themes: seq<ThemeEntry>, currentThemeId: string): (r: int)
    requires |themes| > 0
    ensures 0 <= r < |themes|
    ensures (exists k :: 0 <= k < |themes| && themes[k].id == currentThemeId) ==>
              themes[r].id == currentThemeId && r == InitialIndexAsWritten(themes, currentThemeId)
    ensures (forall k :: 0 <= k < |themes| ==> themes[k].id != currentThemeId) ==> r == 0
  {
    var found := FindIndex(themes, currentThemeId);
    if found == -1 then 0 else found
  }

  class Selector {
    const themes: seq<ThemeEntry>
    var currentIndex: int
    /** The ids handed to `onSelectTheme`, in call order. */
    ghost var selections: seq<string>

    ghost predicate Valid()
      reads this
    {
      0 <= currentIndex < |themes|
    }

    constructor (themes: seq<ThemeEntry>, currentThemeId: string)
      requires |themes| > 0
      ensures Valid()
      ensures this.themes == themes
      ensures currentIndex == InitialIndex(themes, currentThemeId)
      ensures selections == []
    {
      this.themes := themes;
      currentIndex := InitialIndex(themes, currentThemeId);
      selections := [];
    }

    /** The name the component shows: `themes[currentIndex].name`. */
    function CurrentName(): (name: string)
      reads this
      requires Valid()
      ensures name in set k | 0 <= k < |themes| :: themes[k].name
    {
      themes[currentIndex].name
    }

    /** `nextTheme`: advance with wrap-around and report the new theme once. */
    method NextTheme()
      requires Valid()
      modifies this
      ensures Valid()
      ensures currentIndex == (if old(currentIndex) == |themes| - 1 then 0 else old(currentIndex) + 1)
      ensures currentIndex == Next(old(currentIndex), |themes|)
      ensures selections == old(selections) + [themes[currentIndex].id]
    {
      StepsStayInRange(currentIndex, |themes|);
      var newIndex := Next(currentIndex, |themes|);
      currentIndex := newIndex;
      selections := selections + [themes[newIndex].id];
    }

    /** `prevTheme`: step back with wrap-around and report the new theme once. */
    method PrevTheme()
      requires Valid()
      modifies this
      ensures Valid()
      ensures currentIndex == (if old(currentIndex) == 0 then |themes| - 1 else old(currentIndex) - 1)
      ensures currentIndex == Prev(old(currentIndex), |themes|)
      ensures selections == old(selections) + [themes[currentIndex].id]
    {
      StepsStayInRange(currentIndex, |themes|);
      var newIndex := Prev(currentIndex, |themes|);
      currentIndex := newIndex;
      selections := selections + [themes[newIndex].id];
    }
  }

  /** Next then previous brings the selector back to the theme it showed. */
  method NextThenPrevRestores(s: Selector)
    requires s.Valid()
    modifies s
    ensures s.currentIndex == old(s.currentIndex)
    ensures s.selections == old(s.selections) + [s.themes[Next(old(s.currentIndex), |s.themes|)].id, s.themes[s.currentIndex].id]
  {
    s.NextTheme();
    s.PrevTheme();
    StepsInverse(old(s.currentIndex), |s.themes|);
  }
}

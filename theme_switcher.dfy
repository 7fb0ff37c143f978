/**
 * The theme switcher: a menu flag flipped by the palette button, the list
 * of themes shown while it is open, the highlight on the current theme's
 * option, and the option's test id.
 */
module ThemeSwitcher {
  import opened ThemeContext
  import opened TestIds

  /** An option is highlighted when its name is the current theme's name. */
  predicate IsHighlighted(current: Theme, option: Theme) {
    current.name == option.name
  }

  /** How many of the listed options are highlighted. */
  function HighlightCount(current: Theme, options: seq<Theme>): (n: nat)
    ensures n <= |options|
  {
    if |options| == 0 then 0
    else (if IsHighlighted(current, options[0]) then 1 else 0) + HighlightCount(current, options[1..])
  }

  predicate DistinctNames(options: seq<Theme>) {
    forall i, j :: 0 <= i < j < |options| ==> options[i].name != options[j].name
  }

  /** No option is highlighted when no name matches. */
  lemma {:induction false} NoneHighlighted(current: Theme, options: seq<Theme>)
    requires forall i :: 0 <= i < |options| ==> options[i].name != current.name
    ensures HighlightCount(current, options) == 0
  {
    if |options| > 0 {
      NoneHighlighted(current, options[1..]);
    }
  }

  /** With distinct names, exactly one option is highlighted: the current
      theme's own. */
  lemma {:induction false} ExactlyOneHighlighted(options: seq<Theme>, k: nat)
    requires DistinctNames(options)
    requires k < |options|
    ensures HighlightCount(options[k], options) == 1
    ensures forall i :: 0 <= i < |options| ==> (IsHighlighted(options[k], options[i]) <==> i == k)
  {
    var rest := options[1..];
    if k == 0 {
      assert forall i :: 0 <= i < |rest| ==> rest[i].name != options[0].name by {
        forall i | 0 <= i < |rest| ensures rest[i].name != options[0].name {
          assert rest[i] == options[i + 1];
        }
      }
      NoneHighlighted(options[0], rest);
    } else {
      assert DistinctNames(rest) by {
        forall i, j | 0 <= i < j < |rest| ensures rest[i].name != rest[j].name {
          assert rest[i] == options[i + 1] && rest[j] == options[j + 1];
        }
      }
      assert rest[k - 1] == options[k];
      ExactlyOneHighlighted(rest, k - 1);
    }
  }

  /** The same, for the switcher's own table. */
  lemma ThemeHighlightedOnce(current: Theme)
    requires current in Themes
    ensures HighlightCount(current, Themes) == 1
    ensures forall i :: 0 <= i < |Themes| ==> (IsHighlighted(current, Themes[i]) <==> Themes[i] == current)
  {
    ThemesTableFacts();
    var k :| 0 <= k < |Themes| && Themes[k] == current;
    ExactlyOneHighlighted(Themes, k);
  }

  const TestIdPrefix: string := "theme-"

  /** `data-testid` of a theme's option. */
  function TestId(t: Theme): (id: string)
    ensures |id| >= |TestIdPrefix| && id[..|TestIdPrefix|] == TestIdPrefix
    ensures NoSpace(id) && NoUpper(id[|TestIdPrefix|..])
  {
    var slug := Slug(t.name);
    assert (TestIdPrefix + slug)[|TestIdPrefix|..] == slug;
    TestIdPrefix + slug
  }

  /** Test ids differ when the names start with different letters (before
      lower-casing) that are not whitespace. */
  lemma DistinctInitialsGiveDistinctIds(a: Theme, b: Theme)
    requires |a.name| > 0 && |b.name| > 0
    requires !IsSpace(a.name[0]) && !IsSpace(b.name[0])
    requires LowerChar(a.name[0]) != LowerChar(b.name[0])
    ensures TestId(a) != TestId(b)
  {
    SlugHead(a.name);
    SlugHead(b.name);
    assert TestId(a)[|TestIdPrefix|] == Slug(a.name)[0];
    assert TestId(b)[|TestIdPrefix|] == Slug(b.name)[0];
  }

  /** The names of the table's themes, in order. */
  lemma TableNames()
    ensures |Themes| == 5
    ensures Themes[0].name == "Warm Beige" && Themes[1].name == "Cool Mint"
    ensures Themes[2].name == "Soft Pink" && Themes[3].name == "Ocean Blue"
    ensures Themes[4].name == "Dark Mode"
  {
  }

  /** The five table themes get five different test ids: their names start
      with W, C, S, O and D. */
  lemma TestIdsDistinct()
    ensures forall i, j :: 0 <= i < j < |Themes| ==> TestId(Themes[i]) != TestId(Themes[j])
  {
    TableNames();
    var initials := "wcsod";
    forall i | 0 <= i < |Themes|
      ensures |Themes[i].name| > 0 && !IsSpace(Themes[i].name[0])
      ensures LowerChar(Themes[i].name[0]) == initials[i]
    {
    }
    forall i, j | 0 <= i < j < |Themes|
      ensures TestId(Themes[i]) != TestId(Themes[j])
    {
      DistinctInitialsGiveDistinctIds(Themes[i], Themes[j]);
    }
  }

  /** The switcher component: its own menu flag and the provider it reads
      the current theme from and writes the selection to. */
  class Switcher {
    var isOpen: bool
    const provider: ThemeProvider

    ghost predicate Valid()
      reads this, provider
    {
      provider.Valid() && provider.theme in Themes
    }

    /** The menu starts closed. */
    constructor (p: ThemeProvider)
      requires p.Valid() && p.theme in Themes
      ensures Valid()
      ensures !isOpen && provider == p
    {
      isOpen := false;
      provider := p;
    }

    /** The options listed: the whole table, in order, while open; none
        while closed. */
    function Options(): (options: seq<Theme>)
      reads this
      ensures isOpen ==> options == Themes
      ensures !isOpen ==> |options| == 0
    {
      if isOpen then Themes else []
    }

    /** The palette button flips the flag and touches nothing else. */
    method Toggle()
      requires Valid()
      modifies this
      ensures Valid()
      ensures isOpen == !old(isOpen)
    {
      isOpen := !isOpen;
    }

    /** Clicking an option makes it the current theme, applies it, and
        closes the menu; afterwards that option alone is highlighted. */
    method Select(t: Theme)
      requires Valid()
      requires t in Options()
      modifies this, provider
      ensures Valid()
      ensures !isOpen
      ensures provider.theme == t
      ensures provider.style == old(provider.style) + ThemeStyle(t)
      ensures provider.bodyBackground == t.background
      ensures HighlightCount(provider.theme, Themes) == 1
    {
      ThemesTableFacts();
      provider.SetTheme(t);
      isOpen := false;
      ThemeHighlightedOnce(t);
    }
  }
}

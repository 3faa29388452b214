/**
 * The presentation themes: a dark and a light built-in theme, selection by
 * name, toggling, heading sizes by level, the matching syntax-highlighting
 * theme and the palette used for diagram edges.
 */
module Theme {
  type Byte = x: int | 0 <= x < 256

  /** An opaque RGB colour (`Color32::from_rgb`). */
  datatype Color = Rgb(r: Byte, g: Byte, b: Byte)

  const White := Rgb(0xFF, 0xFF, 0xFF)

  /** Font sizes are whole points in both built-in themes, so they are modelled as naturals. */
  datatype Theme = Theme(
    name: string,
    background: Color,
    foreground: Color,
    headingColor: Color,
    accent: Color,
    codeBackground: Color,
    codeForeground: Color,
    h1Size: nat,
    h2Size: nat,
    h3Size: nat,
    bodySize: nat,
    codeSize: nat)

  function Dark(): Theme
  {
    Theme("dark", Rgb(0x1E, 0x1E, 0x1E), Rgb(0xC8, 0xC8, 0xC8), White, Rgb(0x52, 0x94, 0xE2),
          Rgb(0x2D, 0x2D, 0x2D), Rgb(0xD4, 0xD4, 0xD4), 96, 72, 52, 44, 30)
  }

  function Light(): Theme
  {
    Theme("light", White, Rgb(0x1A, 0x1A, 0x2E), Rgb(0x16, 0x21, 0x3E), Rgb(0x0F, 0x34, 0x60),
          Rgb(0xF5, 0xF5, 0xF5), Rgb(0x33, 0x33, 0x33), 96, 72, 52, 44, 30)
  }

  predicate BuiltIn(t: Theme)
  {
    t == Dark() || t == Light()
  }

  /** `Theme::from_name`: "dark" selects the dark theme and every other name the light one. */
  function FromName(name: string): (t: Theme)
    ensures BuiltIn(t)
    ensures t.name == "dark" <==> name == "dark"
    ensures t.name == name <==> name == "dark" || name == "light"
  {
    if name == "dark" then Dark() else Light()
  }

  /** `Theme::toggled`: a theme named "dark" toggles to light, every other theme to dark. */
  function Toggled(t: Theme): (u: Theme)
    ensures BuiltIn(u)
    ensures u.name == "light" <==> t.name == "dark"
    ensures u.name == "dark" <==> t.name != "dark"
  {
    if t.name == "dark" then Light() else Dark()
  }

  /** Toggling a built-in theme twice restores it. */
  lemma ToggledTwice(t: Theme)
    requires BuiltIn(t)
    ensures Toggled(Toggled(t)) == t
  {
  }

  /** Toggling a theme chosen by name gives the theme of the other name. */
  lemma ToggledFromName(name: string)
    ensures Toggled(FromName(name)) == FromName(if name == "dark" then "light" else "dark")
  {
  }

  /** `Theme::heading_size`: levels 1 to 3 have their own size and every other level the body size. */
  function HeadingSize(t: Theme, level: Byte): (size: nat)
    ensures level !in {1, 2, 3} ==> size == t.bodySize
    ensures level in {1, 2, 3} ==> size == [t.h1Size, t.h2Size, t.h3Size][level - 1]
  {
    match level
    case 1 => t.h1Size
    case 2 => t.h2Size
    case 3 => t.h3Size
    case _ => t.bodySize
  }

  /** In both built-in themes a deeper heading is never larger, and no heading is smaller than body text. */
  lemma HeadingSizesDecrease(t: Theme, a: Byte, b: Byte)
    requires BuiltIn(t)
    requires 1 <= a <= b
    ensures HeadingSize(t, b) <= HeadingSize(t, a)
    ensures t.bodySize <= HeadingSize(t, a)
  {
  }

  /** `Theme::syntect_theme_name`: only the theme named "dark" uses the dark highlighting theme. */
  function SyntectThemeName(t: Theme): (n: string)
    ensures n == "base16-ocean.dark" <==> t.name == "dark"
    ensures n == "InspiredGitHub" <==> t.name != "dark"
  {
    if t.name == "dark" then "base16-ocean.dark" else "InspiredGitHub"
  }

  predicate Distinct<T(==)>(s: seq<T>)
  {
    forall i, j :: 0 <= i < j < |s| ==> s[i] != s[j]
  }

  /** `Theme::edge_palette`: eight distinct colours, depending only on whether the theme is named "dark". */
  function EdgePalette(t: Theme): (p: seq<Color>)
    ensures |p| == 8 && Distinct(p)
  {
    if t.name == "dark" then
      [Rgb(0x5C, 0xB8, 0xFF), Rgb(0xFF, 0x7E, 0x67), Rgb(0x5C, 0xDB, 0x95), Rgb(0xE8, 0xA8, 0x38),
       Rgb(0xC0, 0x7E, 0xF1), Rgb(0x4E, 0xD4, 0xD4), Rgb(0xF0, 0x6E, 0xAA), Rgb(0xA3, 0xBE, 0x58)]
    else
      [Rgb(0x1A, 0x6B, 0xB5), Rgb(0xC7, 0x3E, 0x1D), Rgb(0x1E, 0x8A, 0x5A), Rgb(0xB8, 0x7B, 0x0A),
       Rgb(0x7B, 0x3F, 0xA0), Rgb(0x18, 0x8A, 0x8D), Rgb(0xC4, 0x3B, 0x7A), Rgb(0x5A, 0x7A, 0x2B)]
  }

  /** The palette and the highlighting theme of two themes agree when both or neither are named "dark". */
  lemma PaletteDependsOnlyOnDarkness(t: Theme, u: Theme)
    requires (t.name == "dark") == (u.name == "dark")
    ensures EdgePalette(t) == EdgePalette(u)
    ensures SyntectThemeName(t) == SyntectThemeName(u)
  {
  }
}

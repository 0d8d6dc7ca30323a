/** The font loader (src/utils/fontLoader.ts): family names are normalised
    through an alias table; a known family is loaded once, either by a
    stylesheet `<link>` whose load event marks it loaded, or by a `<style>`
    element holding one `@font-face` rule per face, which marks it loaded at
    once. The document head is modelled by the families that have a link or
    a style element in it. */
module FontLoader {
  import opened Common

  const FontAliases: map<string, string> := map[
    "Noto Sans KR" := "NotoSansKR",
    "NotoSansKR" := "NotoSansKR",
    "S-CoreDream" := "SCoreDream",
    "SCoreDream" := "SCoreDream",
    "ChosunGulim" := "ChosunGulim",
    "Nanum Gothic" := "NanumGothic",
    "NanumGothic" := "NanumGothic",
    "ISaManRu" := "ISaManRu",
    "Keris Kedu" := "KerisKedu",
    "KerisKedu" := "KerisKedu",
    "Gmarket Sans" := "GmarketSans",
    "GmarketSans" := "GmarketSans"
  ]

  /** `FONT_ALIASES[family] ?? family`. */
  function NormalizeFontFamily(family: string): (r: string)
    ensures family in FontAliases ==> r == FontAliases[family]
    ensures family !in FontAliases ==> r == family
  {
    if family in FontAliases then FontAliases[family] else family
  }

  /** Every alias target is its own alias, so normalising twice is
      normalising once. */
  lemma NormalizeIdempotent(family: string)
    ensures NormalizeFontFamily(NormalizeFontFamily(family)) == NormalizeFontFamily(family)
  {
    assert forall f :: f in FontAliases ==> FontAliases[f] in FontAliases && FontAliases[FontAliases[f]] == FontAliases[f];
  }

  datatype Face = Face(href: string, weight: Option<string>, style: Option<string>)

  datatype Source = Css(href: string) | Faces(faces: seq<Face>)

  const FontSources: map<string, Source> := map[
    "NotoSansKR" := Css("https://cdn.jsdelivr.net/npm/@fontsource/noto-sans-kr@5.2.5/index.css"),
    "SCoreDream" := Faces([Face("/fonts/S-CoreDream-4Regular.woff", Some("400"), None)]),
    "ChosunGulim" := Faces([Face("/fonts/ChosunGulim.ttf", Some("400"), None)]),
    "NanumGothic" := Faces([Face("/fonts/NanumGothic-Regular.ttf", Some("400"), None)]),
    "ISaManRu" := Faces([Face("/fonts/ISaManRu-Medium.ttf", Some("400"), None)]),
    "KerisKedu" := Faces([Face("/fonts/KERISKEDU_Line.ttf", Some("400"), None)]),
    "GmarketSans" := Faces([Face("/fonts/GmarketSansLight.woff", Some("300"), None)])
  ]

  /** Every alias target has a source, and every source is reached by an
      alias. */
  lemma AliasesMatchSources()
    ensures forall f :: f in FontAliases ==> FontAliases[f] in FontSources
    ensures forall n :: n in FontSources ==> n in FontAliases && FontAliases[n] == n
  {
  }

  datatype Format = Woff2 | Woff | TrueType | OpenType

  /** The CSS name of a format. */
  function FormatName(f: Format): string {
    match f
    case Woff2 => "woff2"
    case Woff => "woff"
    case TrueType => "truetype"
    case OpenType => "opentype"
  }

  /** The last two characters of a text decide which suffix it can end
      with. */
  lemma SuffixTail(s: string, p: string)
    requires |p| >= 2 && EndsWith(s, p)
    ensures s[|s| - 1] == p[|p| - 1] && s[|s| - 2] == p[|p| - 2]
  {
    assert s[|s| - |p|..][|p| - 1] == s[|s| - 1];
    assert s[|s| - |p|..][|p| - 2] == s[|s| - 2];
  }

  /** `getFontFormat`: decided by the lowered file suffix, with TrueType
      for anything unrecognised. */
  function GetFontFormat(href: string): (r: Format)
    ensures r == Woff2 <==> EndsWith(Lower(href), ".woff2")
    ensures r == Woff <==> EndsWith(Lower(href), ".woff")
    ensures r == OpenType <==> EndsWith(Lower(href), ".otf")
    ensures r == TrueType <==>
              !EndsWith(Lower(href), ".woff2") && !EndsWith(Lower(href), ".woff") && !EndsWith(Lower(href), ".otf")
  {
    var lower := Lower(href);
    if EndsWith(lower, ".woff2") then
      SuffixTail(lower, ".woff2");
      assert !EndsWith(lower, ".woff") by {
        if EndsWith(lower, ".woff") { SuffixTail(lower, ".woff"); }
      }
      assert !EndsWith(lower, ".otf") by {
        if EndsWith(lower, ".otf") { SuffixTail(lower, ".otf"); }
      }
      Woff2
    else if EndsWith(lower, ".woff") then
      SuffixTail(lower, ".woff");
      assert !EndsWith(lower, ".otf") by {
        if EndsWith(lower, ".otf") { SuffixTail(lower, ".otf"); }
      }
      Woff
    else if EndsWith(lower, ".otf") then OpenType
    else TrueType
  }

  /** The format depends only on the lowered name. */
  lemma FormatIgnoresCase(href: string)
    ensures GetFontFormat(Lower(href)) == GetFontFormat(href)
  {
    LowerIdempotent(href);
  }

  const RuleHead: string := "\n@font-face {\n  font-family: '"

  /** One `@font-face` rule, with weight 400 and style normal by default. */
  function FaceRule(family: string, face: Face): (r: string)
    ensures StartsWith(r, RuleHead + family + "';\n  src: url('" + face.href + "') format('")
  {
    var fontWeight := if face.weight.Some? then face.weight.value else "400";
    var fontStyle := if face.style.Some? then face.style.value else "normal";
    var fontFormat := FormatName(GetFontFormat(face.href));
    var head := RuleHead + family + "';\n  src: url('" + face.href + "') format('";
    var r := head + (fontFormat + "');\n  font-weight: " + fontWeight + ";\n  font-style: " + fontStyle
                     + ";\n  font-display: swap;\n}\n");
    assert r[..|head|] == head;
    r
  }

  /** The rules of all faces joined with newlines. */
  function StyleText(family: string, faces: seq<Face>): (r: string)
    ensures faces == [] <==> r == []
    ensures faces != [] ==> StartsWith(r, FaceRule(family, faces[0]))
  {
    if faces == [] then []
    else if |faces| == 1 then FaceRule(family, faces[0])
    else
      var rest := StyleText(family, faces[1..]);
      assert (FaceRule(family, faces[0]) + "\n" + rest)[..|FaceRule(family, faces[0])|] == FaceRule(family, faces[0]);
      FaceRule(family, faces[0]) + "\n" + rest
  }

  /** What `loadFont` hands back: a settled promise, or one waiting for the
      stylesheet's load event. */
  datatype Outcome = Resolved | AwaitingStylesheet

  /** The module's `loadedFonts` set and the font elements of the document
      head. */
  class Loader {
    var loadedFonts: set<string>
    var links: set<string>
    var styles: map<string, string>
    const hasDocument: bool

    /** Only known families are ever recorded; a loaded family has its
        element in the head; links belong to stylesheet sources and style
        elements to face sources, holding their rules. */
    predicate Valid()
      reads this
    {
      (forall f :: f in loadedFonts ==> f in FontSources && (f in links || f in styles))
      && (forall f :: f in links ==> f in FontSources && FontSources[f].Css?)
      && (forall f :: f in styles ==> f in FontSources && FontSources[f].Faces?
                                      && styles[f] == StyleText(f, FontSources[f].faces))
    }

    constructor(hasDocument: bool)
      ensures loadedFonts == {} && links == {} && styles == map[] && this.hasDocument == hasDocument
      ensures Valid()
    {
      loadedFonts := {};
      links := {};
      styles := map[];
      this.hasDocument := hasDocument;
    }

    /** `loadFont(family)`. */
    method LoadFont(family: string) returns (r: Outcome)
      modifies this
      requires Valid()
      ensures Valid()
      ensures var n := NormalizeFontFamily(family);
              if n !in FontSources || !hasDocument || n in old(loadedFonts) then
                r == Resolved && loadedFonts == old(loadedFonts) && links == old(links) && styles == old(styles)
              else if FontSources[n].Css? then
                styles == old(styles)
                && (n in old(links) ==> r == Resolved && loadedFonts == old(loadedFonts) + {n} && links == old(links))
                && (n !in old(links) ==> r == AwaitingStylesheet && loadedFonts == old(loadedFonts) && links == old(links) + {n})
              else
                r == Resolved && loadedFonts == old(loadedFonts) + {n} && links == old(links)
                && (n in old(styles) ==> styles == old(styles))
                && (n !in old(styles) ==> styles == old(styles)[n := StyleText(n, FontSources[n].faces)])
    {
      var normalizedFamily := NormalizeFontFamily(family);
      if normalizedFamily !in FontSources || !hasDocument {
        return Resolved;
      }
      if normalizedFamily in loadedFonts {
        return Resolved;
      }
      var source := FontSources[normalizedFamily];
      if source.Css? {
        if normalizedFamily in links {
          loadedFonts := loadedFonts + {normalizedFamily};
          return Resolved;
        }
        links := links + {normalizedFamily};
        return AwaitingStylesheet;
      }
      if normalizedFamily in styles {
        loadedFonts := loadedFonts + {normalizedFamily};
        return Resolved;
      }
      styles := styles[normalizedFamily := StyleText(normalizedFamily, source.faces)];
      loadedFonts := loadedFonts + {normalizedFamily};
      return Resolved;
    }

    /** The stylesheet's load event: its family is recorded as loaded. */
    method StylesheetLoaded(family: string)
      modifies this
      requires Valid() && family in links
      ensures Valid()
      ensures loadedFonts == old(loadedFonts) + {family} && links == old(links) && styles == old(styles)
    {
      loadedFonts := loadedFonts + {family};
    }
  }

  /** Loading the same family twice in a row leaves the second call with
      nothing to do once the first has settled. */
  method LoadTwice(loader: Loader, family: string) returns (first: Outcome, second: Outcome)
    modifies loader
    requires loader.Valid()
    ensures loader.Valid()
    ensures first == Resolved ==>
              (second == Resolved
               && loader.loadedFonts == old(loader.loadedFonts)
                                        + (if NormalizeFontFamily(family) in FontSources && loader.hasDocument
                                           then {NormalizeFontFamily(family)} else {}))
  {
    first := loader.LoadFont(family);
    second := loader.LoadFont(family);
  }
}

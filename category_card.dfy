/**
 * The category tile (src/components/categories/CategoryCard.tsx): the
 * image chosen for a category, and the slug and link built from its
 * display value.
 */
module CategoryCard {
  import opened JsRuntime
  import opened ProductTypes

  /** The entry of `imageMap` for a category. */
  function ImagePath(c: Category): string {
    match c
    case Pens => "/categories/pens.jpg"
    case Notebooks => "/categories/notebooks.jpg"
    case StaplersStaples => "/categories/staplers.jpg"
    case StickyNotes => "/categories/stickynotes.jpg"
    case DeskOrganizers => "/categories/organizers.jpg"
  }

  /** The default image. */
  const FallbackImage: string := "/categories/pens.jpg"

  /**
   * `imageMap[category] || "/categories/pens.jpg"` for a category value or
   * any other own string key; the only caller passes the values of the
   * `Category` enum.  Keys the object inherits from `Object.prototype`
   * ("constructor", "toString", ...) would look up a function there, which
   * this model does not capture.
   */
  function CategoryImage(value: string): (r: string)
    ensures (forall c: Category :: c.Value() != value) ==> r == FallbackImage
  {
    match CategoryFromValue(value)
    case Some(c) => if ImagePath(c) != "" then ImagePath(c) else FallbackImage
    case None => FallbackImage
  }

  /** Each category gets its own fixed path, and no two categories share one. */
  lemma ImagesOfCategories()
    ensures forall c: Category :: CategoryImage(c.Value()) == ImagePath(c)
    ensures forall c: Category, d: Category :: ImagePath(c) == ImagePath(d) ==> c == d
  {
    CategoryValuesDistinct();
    forall c: Category ensures CategoryImage(c.Value()) == ImagePath(c) {
      var found := CategoryFromValue(c.Value());
      assert found.Some? && found.value.Value() == c.Value();
    }
  }

  // ---------------------------------------------------------------------
  // The slug

  /** `toLowerCase` on the ASCII letters (the only cased characters in the category values). */
  function Lower(s: string): (r: string)
    ensures |r| == |s|
    ensures forall i :: 0 <= i < |s| ==> r[i] == LowerChar(s[i])
  {
    seq(|s|, i requires 0 <= i < |s| => LowerChar(s[i]))
  }

  function LowerChar(c: char): char {
    if 'A' <= c <= 'Z' then (c as int + 32) as char else c
  }

  /** `replace(/\s+/g, "-")`: each run of whitespace becomes one "-". */
  function CollapseSpaces(s: string): (r: string)
    ensures |r| <= |s| && (r == [] <==> s == [])
    decreases |s|
  {
    if s == [] then []
    else if IsSpace(s[0]) then "-" + CollapseSpaces(SkipSpaces(s[1..]))
    else [s[0]] + CollapseSpaces(s[1..])
  }

  /** The text after a leading run of whitespace. */
  function SkipSpaces(s: string): (r: string)
    ensures |r| <= |s| && (r == [] || !IsSpace(r[0]))
  {
    if s != [] && IsSpace(s[0]) then SkipSpaces(s[1..]) else s
  }

  /** `replace(/\//g, "-")`. */
  function SlashesToDashes(s: string): (r: string)
    ensures |r| == |s|
    ensures forall i :: 0 <= i < |s| ==> r[i] == if s[i] == '/' then '-' else s[i]
  {
    seq(|s|, i requires 0 <= i < |s| => if s[i] == '/' then '-' else s[i])
  }

  /** `categorySlug`: lower-case, whitespace runs to "-", then "/" to "-". */
  function Slug(value: string): (r: string)
    ensures |r| <= |value| && (r == [] <==> value == [])
  {
    SlashesToDashes(CollapseSpaces(Lower(value)))
  }

  /** The link of the tile. */
  function Href(value: string): (r: string)
    ensures |r| >= 12 && r[..12] == "/categories/" && (|r| == 12 <==> value == [])
  {
    "/categories/" + Slug(value)
  }

  /** After collapsing, no whitespace is left, and every other character is kept. */
  lemma {:induction false} CollapsedHasNoSpace(s: string)
    ensures forall i :: 0 <= i < |CollapseSpaces(s)| ==> !IsSpace(CollapseSpaces(s)[i])
    ensures forall c :: c in CollapseSpaces(s) && c != '-' ==> c in s
    decreases |s|
  {
    if s != [] {
      if IsSpace(s[0]) {
        var rest := SkipSpaces(s[1..]);
        CollapsedHasNoSpace(rest);
        SkippedIsSuffix(s[1..]);
        assert CollapseSpaces(s) == "-" + CollapseSpaces(rest);
      } else {
        CollapsedHasNoSpace(s[1..]);
        assert CollapseSpaces(s) == [s[0]] + CollapseSpaces(s[1..]);
      }
    }
  }

  lemma {:induction false} SkippedIsSuffix(s: string)
    ensures forall c :: c in SkipSpaces(s) ==> c in s
  {
    if s != [] && IsSpace(s[0]) {
      SkippedIsSuffix(s[1..]);
    }
  }

  /** A slug never contains whitespace or "/". */
  lemma SlugIsClean(value: string)
    ensures forall i :: 0 <= i < |Slug(value)| ==> !IsSpace(Slug(value)[i]) && Slug(value)[i] != '/'
  {
    var collapsed := CollapseSpaces(Lower(value));
    CollapsedHasNoSpace(Lower(value));
    forall i | 0 <= i < |Slug(value)| ensures !IsSpace(Slug(value)[i]) && Slug(value)[i] != '/' {
      assert Slug(value)[i] == if collapsed[i] == '/' then '-' else collapsed[i];
    }
  }

  /** The slugs of the five categories; they are pairwise distinct, and so are the links. */
  lemma CategorySlugs()
    ensures Slug(Pens.Value()) == "pens"
    ensures Slug(Notebooks.Value()) == "notebooks"
    ensures Slug(StaplersStaples.Value()) == "staplers-staples"
    ensures Slug(StickyNotes.Value()) == "sticky-notes"
    ensures Slug(DeskOrganizers.Value()) == "desk-organizers"
    ensures forall c: Category, d: Category :: Href(c.Value()) == Href(d.Value()) ==> c == d
  {
    SlugOfPens();
    SlugOfNotebooks();
    SlugOfStaplers();
    SlugOfStickyNotes();
    SlugOfDeskOrganizers();
    forall c: Category, d: Category | c != d ensures Href(c.Value()) != Href(d.Value()) {
      assert |Slug(c.Value())| != |Slug(d.Value())|;
    }
  }

  lemma SlugOfPens()
    ensures Slug(Pens.Value()) == "pens"
  {
    PensText();
    WordSlug("Pens", "pens", "pens");
  }

  lemma SlugOfNotebooks()
    ensures Slug(Notebooks.Value()) == "notebooks"
  {
    NotebooksText();
    WordSlug("Notebooks", "notebooks", "notebooks");
  }

  lemma SlugOfStaplers()
    ensures Slug(StaplersStaples.Value()) == "staplers-staples"
  {
    StaplersText();
    WordSlug("Staplers/Staples", "staplers/staples", "staplers-staples");
  }

  lemma SlugOfStickyNotes()
    ensures Slug(StickyNotes.Value()) == "sticky-notes"
  {
    StickyNotesText();
    TwoWordSlug("Sticky Notes", "Sticky", "Notes", "sticky", "notes");
  }

  lemma SlugOfDeskOrganizers()
    ensures Slug(DeskOrganizers.Value()) == "desk-organizers"
  {
    DeskOrganizersText();
    TwoWordSlug("Desk Organizers", "Desk", "Organizers", "desk", "organizers");
  }

  // Character-level facts about the five values, each checked on its own.

  lemma PensText()
    ensures Word("Pens") && Lower("Pens") == "pens" && SlashesToDashes("pens") == "pens"
  {
  }

  lemma NotebooksText()
    ensures Word("Notebooks") && Lower("Notebooks") == "notebooks"
    ensures SlashesToDashes("notebooks") == "notebooks"
  {
  }

  lemma StaplersText()
    ensures Word("Staplers/Staples") && Lower("Staplers/Staples") == "staplers/staples"
    ensures SlashesToDashes("staplers/staples") == "staplers-staples"
  {
  }

  lemma StickyNotesText()
    ensures Letters("Sticky") && Letters("Notes") && Lower("Sticky") == "sticky" && Lower("Notes") == "notes"
    ensures "Sticky" + " " + "Notes" == "Sticky Notes"
  {
  }

  lemma DeskOrganizersText()
    ensures Letters("Desk") && Letters("Organizers") && Lower("Desk") == "desk"
    ensures Lower("Organizers") == "organizers"
    ensures "Desk" + " " + "Organizers" == "Desk Organizers"
  {
  }

  /** An ASCII letter. */
  predicate IsLetter(c: char) {
    'A' <= c <= 'Z' || 'a' <= c <= 'z'
  }

  /** ASCII letters only. */
  predicate Letters(s: string) {
    forall i :: 0 <= i < |s| ==> IsLetter(s[i])
  }

  /** ASCII letters and "/" only. */
  predicate Word(s: string) {
    forall i :: 0 <= i < |s| ==> IsLetter(s[i]) || s[i] == '/'
  }

  /** Lower-casing keeps a word a word. */
  lemma LowerKeepsWord(s: string)
    requires Word(s)
    ensures Word(Lower(s))
  {
  }

  lemma LowerKeepsLetters(s: string)
    requires Letters(s)
    ensures Letters(Lower(s))
  {
  }

  /** A word holds no whitespace. */
  lemma WordHasNoSpace(s: string)
    requires Word(s)
    ensures forall i :: 0 <= i < |s| ==> !IsSpace(s[i])
  {
  }

  /** A value made of letters and "/": the slug is its lower-case form with "/" turned to "-". */
  lemma WordSlug(value: string, lower: string, slug: string)
    requires Word(value) && Lower(value) == lower && SlashesToDashes(lower) == slug
    ensures Slug(value) == slug
  {
    LowerKeepsWord(value);
    WordHasNoSpace(lower);
    NoSpaceCollapse(lower);
  }

  /** Two words of letters joined by one space: the slug joins their lower-case forms with "-". */
  lemma TwoWordSlug(value: string, a: string, b: string, la: string, lb: string)
    requires value == a + " " + b
    requires Letters(a) && Letters(b) && |b| > 0 && Lower(a) == la && Lower(b) == lb
    ensures Slug(value) == la + "-" + lb
  {
    LowerJoin(a, b);
    LowerKeepsLetters(a);
    LowerKeepsLetters(b);
    CollapseTwoWords(la, lb);
    JoinedHasNoSlash(la, lb);
  }

  /** "w1 w2" collapses to "w1-w2". */
  lemma CollapseTwoWords(la: string, lb: string)
    requires Letters(la) && Letters(lb) && |lb| > 0
    ensures CollapseSpaces(la + " " + lb) == la + "-" + lb
  {
    WordHasNoSpace(la);
    WordHasNoSpace(lb);
    CollapseAfterWord(la, " " + lb);
    assert la + " " + lb == la + (" " + lb);
    SpaceThenWord(lb);
    assert la + ("-" + lb) == la + "-" + lb;
  }

  lemma LowerJoin(a: string, b: string)
    ensures Lower(a + " " + b) == Lower(a) + " " + Lower(b)
  {
  }

  /** One space before a word collapses to one "-". */
  lemma SpaceThenWord(w: string)
    requires |w| > 0 && forall i :: 0 <= i < |w| ==> !IsSpace(w[i])
    ensures CollapseSpaces(" " + w) == "-" + w
  {
    assert (" " + w)[0] == ' ' && (" " + w)[1..] == w;
    assert SkipSpaces(w) == w;
    NoSpaceCollapse(w);
  }

  lemma JoinedHasNoSlash(la: string, lb: string)
    requires Letters(la) && Letters(lb)
    ensures SlashesToDashes(la + "-" + lb) == la + "-" + lb
  {
    NoSlashKept(la + "-" + lb);
  }

  /** Collapsing leaves a text without whitespace as it is. */
  lemma {:induction false} NoSpaceCollapse(s: string)
    requires forall i :: 0 <= i < |s| ==> !IsSpace(s[i])
    ensures CollapseSpaces(s) == s
    decreases |s|
  {
    if s != [] {
      NoSpaceCollapse(s[1..]);
      assert [s[0]] + s[1..] == s;
    }
  }

  /** Collapsing passes over a leading word unchanged. */
  lemma {:induction false} CollapseAfterWord(w: string, rest: string)
    requires forall i :: 0 <= i < |w| ==> !IsSpace(w[i])
    ensures CollapseSpaces(w + rest) == w + CollapseSpaces(rest)
    decreases |w|
  {
    if w == [] {
      assert w + rest == rest;
    } else {
      assert (w + rest)[0] == w[0] && (w + rest)[1..] == w[1..] + rest;
      assert !IsSpace(w[0]);
      assert CollapseSpaces(w + rest) == [w[0]] + CollapseSpaces(w[1..] + rest);
      CollapseAfterWord(w[1..], rest);
      assert [w[0]] + (w[1..] + CollapseSpaces(rest)) == w + CollapseSpaces(rest);
    }
  }

  /** A text without "/" is left as it is. */
  lemma NoSlashKept(s: string)
    requires forall i :: 0 <= i < |s| ==> s[i] != '/'
    ensures SlashesToDashes(s) == s
  {
  }
}

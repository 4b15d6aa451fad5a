/** The list logic of `AwesomeListBaseScraper`: flattening the category
    tree, the similarity threshold of `_findCategory`, and the string
    clean-up of a category's slug and a library's description. The HTML
    parsing and the nearest-neighbour search are inputs. */
module AwesomeList {
  import opened Wrappers
  import opened Strings

  /** A category of an awesome list: a `Parent` is a list item that holds a
      nested list (its `subcategories`, possibly empty, are then set). */
  datatype Category =
    | Leaf(title: string, slug: string)
    | Parent(title: string, slug: string, subcategories: seq<Category>)

  /** A library parsed from a list item. */
  datatype Library = Library(title: string, link: string, description: string)

  // ---------------------------------------------------------------------
  // Flattening

  /** One step of the `reduce` in `_flattenCategories`: a category with
      subcategories is appended as `{title, slug}` followed by its own
      flattening; any other category is appended as it is. */
  function Flatten(categories: seq<Category>): (r: seq<Category>)
    ensures |r| == Size(categories)
  {
    if categories == [] then []
    else
      var init := categories[..|categories| - 1];
      var c := categories[|categories| - 1];
      assert init < categories;
      var acc := Flatten(init);
      CountSnoc(init, c);
      assert init + [c] == categories;
      if c.Parent? then acc + [Leaf(c.title, c.slug)] + Flatten(c.subcategories)
      else acc + [c]
  }

  /** The number of categories in the forest, at every depth. */
  function Size(categories: seq<Category>): nat {
    if categories == [] then 0 else NodeSize(categories[0]) + Size(categories[1..])
  }

  function NodeSize(c: Category): nat {
    1 + if c.Parent? then Size(c.subcategories) else 0
  }

  lemma {:induction false} SizeAppend(a: seq<Category>, b: seq<Category>)
    ensures Size(a + b) == Size(a) + Size(b)
    decreases |a|
  {
    if a != [] {
      assert (a + b)[0] == a[0] && (a + b)[1..] == a[1..] + b;
      SizeAppend(a[1..], b);
    } else {
      assert a + b == b;
    }
  }

  lemma CountSnoc(init: seq<Category>, c: Category)
    ensures Size(init + [c]) == Size(init) + NodeSize(c)
  {
    SizeAppend(init, [c]);
    assert [c][1..] == [];
  }

  /** The reference pre-order: each category (a parent without its
      children), then its descendants, then its next sibling. */
  function PreOrder(categories: seq<Category>): seq<Category> {
    if categories == [] then [] else Node(categories[0]) + PreOrder(categories[1..])
  }

  function Node(c: Category): seq<Category> {
    if c.Parent? then [Leaf(c.title, c.slug)] + PreOrder(c.subcategories) else [c]
  }

  lemma {:induction false} PreOrderAppend(a: seq<Category>, b: seq<Category>)
    ensures PreOrder(a + b) == PreOrder(a) + PreOrder(b)
    decreases |a|
  {
    if a != [] {
      assert (a + b)[0] == a[0] && (a + b)[1..] == a[1..] + b;
      PreOrderAppend(a[1..], b);
    } else {
      assert a + b == b;
    }
  }

  /** The fold is that pre-order traversal. */
  lemma {:induction false} FlattenIsPreOrder(categories: seq<Category>)
    ensures Flatten(categories) == PreOrder(categories)
    decreases categories
  {
    if categories != [] {
      var init := categories[..|categories| - 1];
      var c := categories[|categories| - 1];
      assert init < categories;
      FlattenIsPreOrder(init);
      if c.Parent? {
        FlattenIsPreOrder(c.subcategories);
      }
      PreOrderAppend(init, [c]);
      assert init + [c] == categories;
      assert [c][1..] == [];
    }
  }

  /** A parent comes first, stripped of its children, and its descendants
      follow it directly. */
  lemma ParentBeforeDescendants(c: Category)
    requires c.Parent?
    ensures Flatten([c]) == [Leaf(c.title, c.slug)] + Flatten(c.subcategories)
  {
    FlattenIsPreOrder([c]);
    FlattenIsPreOrder(c.subcategories);
    assert [c][1..] == [];
  }

  /** Flattening a forest of two is flattening each, in order: siblings
      keep their order. */
  lemma SiblingsKeepOrder(a: seq<Category>, b: seq<Category>)
    ensures Flatten(a + b) == Flatten(a) + Flatten(b)
  {
    FlattenIsPreOrder(a + b);
    FlattenIsPreOrder(a);
    FlattenIsPreOrder(b);
    PreOrderAppend(a, b);
  }

  predicate IsFlat(categories: seq<Category>) {
    forall i :: 0 <= i < |categories| ==> categories[i].Leaf?
  }

  /** A list without subcategories flattens to itself. */
  lemma {:induction false} FlatIsFixed(categories: seq<Category>)
    requires IsFlat(categories)
    ensures Flatten(categories) == categories
    decreases |categories|
  {
    if categories != [] {
      var init := categories[..|categories| - 1];
      FlatIsFixed(init);
      assert init + [categories[|categories| - 1]] == categories;
    }
  }

  /** Every flattened category is a leaf, so flattening twice changes
      nothing. */
  lemma FlattenIsFlat(categories: seq<Category>)
    ensures IsFlat(Flatten(categories))
    ensures Flatten(Flatten(categories)) == Flatten(categories)
  {
    FlattenLeaves(categories);
    FlatIsFixed(Flatten(categories));
  }

  lemma {:induction false} FlattenLeaves(categories: seq<Category>)
    ensures IsFlat(Flatten(categories))
    decreases categories
  {
    if categories != [] {
      var init := categories[..|categories| - 1];
      var c := categories[|categories| - 1];
      assert init < categories;
      FlattenLeaves(init);
      if c.Parent? {
        FlattenLeaves(c.subcategories);
        FlatConcat(Flatten(init) + [Leaf(c.title, c.slug)], Flatten(c.subcategories));
      } else {
        FlatConcat(Flatten(init), [c]);
      }
    }
  }

  lemma FlatConcat(a: seq<Category>, b: seq<Category>)
    requires IsFlat(a) && IsFlat(b)
    ensures IsFlat(a + b)
  {
    forall i | 0 <= i < |a + b| ensures (a + b)[i].Leaf? {
      if i >= |a| {
        assert (a + b)[i] == b[i - |a|];
      }
    }
  }

  // ---------------------------------------------------------------------
  // Finding the category of a query

  /** The probability above which the most similar category is taken. */
  const Threshold: real := 0.6

  /** `_findCategory(query, categories)`: the nearest-neighbour search
      picks the item at index `pick` of the flattened categories with
      similarity `probability`; an index past the items stands for a
      search that found none. */
  function FindCategory(categories: seq<Category>, pick: nat, probability: real): (r: Option<Category>)
    ensures r.Some? <==> probability > Threshold && pick < |Flatten(categories)|
    ensures r.Some? ==> r.value == Flatten(categories)[pick]
  {
    var items := Flatten(categories);
    if pick < |items| && probability > Threshold then Some(items[pick]) else None
  }

  /** A category found is a leaf of the flattened list. */
  lemma FoundIsLeaf(categories: seq<Category>, pick: nat, probability: real)
    requires FindCategory(categories, pick, probability).Some?
    ensures FindCategory(categories, pick, probability).value in Flatten(categories)
    ensures FindCategory(categories, pick, probability).value.Leaf?
  {
    FlattenIsFlat(categories);
  }

  /** `category => !category ? [] : this._parseLibraries($, category)`,
      `parse` standing for the DOM lookup of the category's list. */
  function LibrariesOf(found: Option<Category>, parse: Category -> seq<Library>): (r: seq<Library>)
    ensures found.None? ==> r == []
    ensures found.Some? ==> r == parse(found.value)
  {
    if found.None? then [] else parse(found.value)
  }

  // ---------------------------------------------------------------------
  // Strings

  /** `href.replace('#', '')`: the first `#` is removed. */
  function Slug(href: string): string {
    ReplaceFirst(href, "#", "")
  }

  /** The slug is the href without its first `#`; an href without one is
      the slug already. */
  lemma SlugDropsFirstHash(href: string)
    ensures '#' !in href ==> Slug(href) == href
    ensures forall i :: 0 <= i < |href| && href[i] == '#' && '#' !in href[..i] ==>
      Slug(href) == href[..i] + href[i + 1..]
  {
    var k := IndexOf(href, "#");
    if k >= 0 {
      assert href[k..k + 1] == "#";
      assert href[k] == '#';
    }
    forall i | 0 <= i < |href| && href[i] == '#' && '#' !in href[..i]
      ensures Slug(href) == href[..i] + href[i + 1..]
    {
      assert OccursAt(href, "#", i) by {
        assert href[i..i + 1] == [href[i]];
      }
    }
  }

  /** An anchor `#name` has the slug `name`. */
  lemma AnchorSlug(name: string)
    ensures Slug("#" + name) == name
  {
    var href := "#" + name;
    SlugDropsFirstHash(href);
    assert href[..0] == [] && href[1..] == name;
  }

  /** `$(node).text().replace(`${title} - `, '').trim()`. */
  function Description(text: string, title: string): (r: string)
    ensures r == [] || (!IsSpace(r[0]) && !IsSpace(r[|r| - 1]))
  {
    Trim(ReplaceFirst(text, title + " - ", ""))
  }

  /** `replace` drops the first `title - `, wherever it sits, and the rest
      is trimmed. */
  lemma DescriptionDropsFirstTitle(text: string, title: string, k: nat)
    requires OccursAt(text, title + " - ", k)
    requires forall j :: 0 <= j < k ==> !OccursAt(text, title + " - ", j)
    ensures Description(text, title) == Trim(text[..k] + text[k + |title| + 3..])
  {
    var p := title + " - ";
    ReplaceFirstAt(text, p, "", k);
    assert text[..k] + "" + text[k + |p|..] == text[..k] + text[k + |title| + 3..];
  }

  /** Without a `title - ` the whole text is trimmed. */
  lemma DescriptionWithoutTitle(text: string, title: string)
    requires forall j :: !OccursAt(text, title + " - ", j)
    ensures Description(text, title) == Trim(text)
  {
    ReplaceFirstAbsent(text, title + " - ", "");
  }

  /** A list item that reads `title - description` yields `description`,
      when the description has no surrounding whitespace. */
  lemma DescriptionAfterTitle(title: string, description: string)
    requires description == [] || (!IsSpace(description[0]) && !IsSpace(description[|description| - 1]))
    ensures Description(title + " - " + description, title) == description
  {
    var p := title + " - ";
    var text := p + description;
    assert text[0..|p|] == p;
    assert IndexOf(text, p) == 0;
    assert ReplaceFirst(text, p, "") == description by {
      assert text[..0] + "" + text[|p|..] == text[|p|..];
      assert text[|p|..] == description;
    }
  }

  /** `_parseLibrary`: the anchor's text and href, and the clean description. */
  function ParseLibrary(anchorText: string, href: string, nodeText: string): (r: Library)
    ensures r.title == anchorText && r.link == href
    ensures r.description == [] || (!IsSpace(r.description[0]) && !IsSpace(r.description[|r.description| - 1]))
  {
    Library(anchorText, href, Description(nodeText, anchorText))
  }
}

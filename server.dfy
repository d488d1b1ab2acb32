/**
 * The backend: catalog listing, search and lookup over the product list, and the cart,
 * wishlist and review collections, each a sequence of records in insertion order.
 */
module Server {
  import opened Wrappers
  import opened Text
  import opened Seqs
  import opened Entities

  /** A route's reply: a value, or an HTTP error with its status and detail. */
  datatype Response<T> = Ok(value: T) | HttpError(status: int, detail: string)

  // ================================================================ catalog

  function CategoryEquals(category: string): Product -> bool {
    (p: Product) => ToLower(p.category) == ToLower(category)
  }

  /** A category argument that filters: present, non-empty and not "All". */
  predicate Filters(category: Option<string>) {
    Truthy(category) && category.value != "All"
  }

  /** `get_products(category)`. */
  function GetProducts(catalog: seq<Product>, category: Option<string>): (r: seq<Product>)
    ensures !Filters(category) ==> r == catalog
    ensures IsSubsequence(r, catalog)
    ensures Filters(category) ==>
      && (forall i :: 0 <= i < |r| ==> ToLower(r[i].category) == ToLower(category.value))
      && (forall i :: 0 <= i < |catalog| && ToLower(catalog[i].category) == ToLower(category.value) ==> catalog[i] in r)
  {
    if Filters(category) then
      FilterIsSubsequence(catalog, CategoryEquals(category.value));
      Filter(catalog, CategoryEquals(category.value))
    else
      SubsequenceRefl(catalog);
      catalog
  }

  lemma {:induction false} SubsequenceRefl<T>(s: seq<T>)
    ensures IsSubsequence(s, s)
    decreases |s|
  {
    if s != [] {
      SubsequenceRefl(s[1..]);
    }
  }

  /** As written: `category.lower().replace(" ", "-").replace("&", "")`. */
  function NormaliseCategoryAsWritten(category: string): string {
    RemoveChar(ReplaceChar(ToLower(category), ' ', '-'), '&')
  }

  /** Each run of spaces becomes a single "-"; `afterSpace` says the previous character was a space. */
  function CollapseSpaces(s: string, afterSpace: bool): (r: string)
    ensures ' ' !in r
    ensures forall c :: c in r && c != '-' ==> c in s
  {
    if s == [] then []
    else if s[0] == ' ' then (if afterSpace then [] else ['-']) + CollapseSpaces(s[1..], true)
    else [s[0]] + CollapseSpaces(s[1..], false)
  }

  /** Corrected normalisation: lower-case, drop "&", then each run of spaces becomes one "-". */
  function NormaliseCategory(category: string): (r: string)
    ensures ' ' !in r && '&' !in r
    ensures forall i :: 0 <= i < |r| ==> !('A' <= r[i] <= 'Z')
  {
    var lowered := ToLower(category);
    ToLowerIdempotent(category);
    var dropped := RemoveChar(lowered, '&');
    var r := CollapseSpaces(dropped, false);
    forall i | 0 <= i < |r| ensures !('A' <= r[i] <= 'Z') {
      if r[i] != '-' {
        assert r[i] in dropped;
        var j :| 0 <= j < |lowered| && lowered[j] == r[i];
      }
    }
    r
  }

  predicate NoDoubleSpace(s: string) {
    forall i :: 0 <= i < |s| - 1 ==> !(s[i] == ' ' && s[i + 1] == ' ')
  }

  lemma {:induction false} CollapseIsReplace(s: string, afterSpace: bool)
    requires NoDoubleSpace(s)
    requires afterSpace ==> s == [] || s[0] != ' '
    ensures CollapseSpaces(s, afterSpace) == ReplaceChar(s, ' ', '-')
    decreases |s|
  {
    if s != [] {
      assert NoDoubleSpace(s[1..]) by {
        forall i | 0 <= i < |s[1..]| - 1 ensures !(s[1..][i] == ' ' && s[1..][i + 1] == ' ') {
          assert s[1..][i] == s[i + 1] && s[1..][i + 1] == s[i + 2];
        }
      }
      if |s| > 1 {
        assert !(s[0] == ' ' && s[1] == ' ');
      }
      CollapseIsReplace(s[1..], s[0] == ' ');
    }
  }

  /**
   * For a category without "&" and without two spaces in a row, the corrected normalisation
   * agrees with the code as written.
   */
  lemma NormalisationAgreesWithoutAmpersand(category: string)
    requires '&' !in category && NoDoubleSpace(category)
    ensures NormaliseCategory(category) == NormaliseCategoryAsWritten(category)
  {
    var lowered := ToLower(category);
    assert '&' !in lowered by {
      forall i | 0 <= i < |lowered| ensures lowered[i] != '&' {
        assert category[i] != '&';
      }
    }
    assert NoDoubleSpace(lowered) by {
      forall i | 0 <= i < |lowered| - 1 ensures !(lowered[i] == ' ' && lowered[i + 1] == ' ') {
        assert lowered[i] == ' ' ==> category[i] == ' ';
        assert lowered[i + 1] == ' ' ==> category[i + 1] == ' ';
      }
    }
    RemoveAbsentChar(lowered, '&');
    CollapseIsReplace(lowered, false);
    var replaced := ReplaceChar(lowered, ' ', '-');
    assert '&' !in replaced by {
      forall i | 0 <= i < |replaced| ensures replaced[i] != '&' {
        assert lowered[i] != '&';
      }
    }
    RemoveAbsentChar(replaced, '&');
  }

  lemma {:induction false} RemoveAbsentChar(s: string, c: char)
    requires c !in s
    ensures RemoveChar(s, c) == s
    decreases |s|
  {
    if s != [] {
      RemoveAbsentChar(s[1..], c);
    }
  }

  /** A word of a category name: non-empty, without spaces and without "&". */
  predicate PlainWord(w: string) {
    w != [] && ' ' !in w && '&' !in w
  }

  lemma ToLowerAppend(a: string, b: string)
    ensures ToLower(a + b) == ToLower(a) + ToLower(b)
  {
    var l, r := ToLower(a + b), ToLower(a) + ToLower(b);
    forall i | 0 <= i < |l| ensures l[i] == r[i] {
      if i < |a| { assert (a + b)[i] == a[i]; } else { assert (a + b)[i] == b[i - |a|]; }
    }
  }

  lemma ReplaceCharAppend(a: string, b: string, from: char, to: char)
    ensures ReplaceChar(a + b, from, to) == ReplaceChar(a, from, to) + ReplaceChar(b, from, to)
  {
    var ab := a + b;
    var ra, rb := ReplaceChar(a, from, to), ReplaceChar(b, from, to);
    var l, r := ReplaceChar(ab, from, to), ra + rb;
    assert |l| == |r|;
    forall i | 0 <= i < |l| ensures l[i] == r[i] {
      if i < |a| {
        assert ab[i] == a[i] && r[i] == ra[i];
      } else {
        assert ab[i] == b[i - |a|] && r[i] == rb[i - |a|];
      }
    }
  }

  lemma ReplaceAbsentChar(s: string, from: char, to: char)
    requires from !in s
    ensures ReplaceChar(s, from, to) == s
  {
    var r := ReplaceChar(s, from, to);
    forall i | 0 <= i < |s| ensures r[i] == s[i] {
      assert s[i] != from;
    }
  }

  /** Lower-casing a plain word keeps it plain. */
  lemma LowerPlainWord(w: string)
    requires PlainWord(w)
    ensures PlainWord(ToLower(w))
  {
    var l := ToLower(w);
    forall i | 0 <= i < |l| ensures l[i] != ' ' && l[i] != '&' {
      assert w[i] != ' ' && w[i] != '&';
    }
  }

  lemma {:induction false} CollapseWithoutSpace(s: string, afterSpace: bool)
    requires ' ' !in s
    ensures CollapseSpaces(s, afterSpace) == s
    decreases |s|
  {
    if s != [] {
      CollapseWithoutSpace(s[1..], false);
    }
  }

  /** Lower-casing "A & B" lower-cases the two words and keeps " & ". */
  lemma LowerJoin(a: string, b: string)
    ensures ToLower(a + " & " + b) == ToLower(a) + " & " + ToLower(b)
  {
    ToLowerAppend(a + " & ", b);
    ToLowerAppend(a, " & ");
    assert ToLower(" & ") == " & ";
  }

  /** Replacing the spaces of "a & b" gives "a-&-b". */
  lemma ReplaceJoin(a: string, b: string)
    requires PlainWord(a) && PlainWord(b)
    ensures ReplaceChar(a + " & " + b, ' ', '-') == a + "-&-" + b
  {
    ReplaceCharAppend(a + " & ", b, ' ', '-');
    ReplaceCharAppend(a, " & ", ' ', '-');
    ReplaceAbsentChar(a, ' ', '-');
    ReplaceAbsentChar(b, ' ', '-');
    assert ReplaceChar(" & ", ' ', '-') == "-&-";
  }

  /** Removing "&" from `a + sep + b` removes it from the separator only. */
  lemma DropJoin(a: string, sep: string, b: string)
    requires PlainWord(a) && PlainWord(b)
    ensures RemoveChar(a + sep + b, '&') == a + RemoveChar(sep, '&') + b
  {
    RemoveCharAppend(a + sep, b, '&');
    RemoveCharAppend(a, sep, '&');
    RemoveAbsentChar(a, '&');
    RemoveAbsentChar(b, '&');
  }

  /** Collapsing "a  b" gives "a-b". */
  lemma CollapseJoin(a: string, b: string)
    requires PlainWord(a) && PlainWord(b)
    ensures CollapseSpaces(a + "  " + b, false) == a + "-" + b
  {
    var tail := "  " + b;
    assert a + "  " + b == a + tail;
    CollapseAfterWord(a, tail, false);
    assert tail[0] == ' ' && tail[1..] == " " + b;
    assert (" " + b)[0] == ' ' && (" " + b)[1..] == b;
    CollapseWithoutSpace(b, true);
  }

  lemma DropSpacedSeparator()
    ensures RemoveChar(" & ", '&') == "  "
  {
  }

  lemma DropDashedSeparator()
    ensures RemoveChar("-&-", '&') == "--"
  {
  }

  lemma NormaliseCategoryUnfold(category: string)
    ensures NormaliseCategory(category) == CollapseSpaces(RemoveChar(ToLower(category), '&'), false)
  {
  }

  /** As written, "A & B" normalises to "a--b". */
  lemma AsWrittenJoin(a: string, b: string)
    requires PlainWord(a) && PlainWord(b)
    ensures NormaliseCategoryAsWritten(a + " & " + b) == ToLower(a) + "--" + ToLower(b)
  {
    var la, lb := ToLower(a), ToLower(b);
    LowerPlainWord(a);
    LowerPlainWord(b);
    LowerJoin(a, b);
    ReplaceJoin(la, lb);
    DropJoin(la, "-&-", lb);
    DropDashedSeparator();
  }

  /** The corrected normalisation turns "A & B" into "a-b". */
  lemma CorrectedJoin(a: string, b: string)
    requires PlainWord(a) && PlainWord(b)
    ensures NormaliseCategory(a + " & " + b) == ToLower(a) + "-" + ToLower(b)
  {
    var la, lb := ToLower(a), ToLower(b);
    LowerPlainWord(a);
    LowerPlainWord(b);
    LowerJoin(a, b);
    DropJoin(la, " & ", lb);
    DropSpacedSeparator();
    CollapseJoin(la, lb);
    NormaliseCategoryUnfold(a + " & " + b);
  }

  lemma ContainsLonger(hay: string, needle: string)
    requires |needle| > |hay|
    ensures !Contains(hay, needle)
  {
  }

  lemma ContainsSelf(s: string)
    ensures Contains(s, s)
  {
    assert OccursAt(s, s, 0);
  }

  /**
   * As written, a category "A & B" of two plain words normalises to "a--b", one character
   * longer than the "a-b" the corrected normalisation gives, so the category filter never
   * matches a product whose category is that slug.
   */
  lemma AmpersandCategoryMismatch(a: string, b: string)
    requires PlainWord(a) && PlainWord(b)
    ensures NormaliseCategoryAsWritten(a + " & " + b) == ToLower(a) + "--" + ToLower(b)
    ensures NormaliseCategory(a + " & " + b) == ToLower(a) + "-" + ToLower(b)
    ensures !Contains(NormaliseCategory(a + " & " + b), NormaliseCategoryAsWritten(a + " & " + b))
  {
    AsWrittenJoin(a, b);
    CorrectedJoin(a, b);
    ContainsLonger(ToLower(a) + "-" + ToLower(b), ToLower(a) + "--" + ToLower(b));
  }

  /** A capitalised word lower-cases to `lower` when their characters agree up to case. */
  lemma LowerWord(w: string, lower: string)
    requires |w| == |lower| && forall i :: 0 <= i < |w| ==> LowerChar(w[i]) == lower[i]
    ensures ToLower(w) == lower
  {
  }

  lemma HomeKitchenWords(a: string, b: string)
    requires a == "Home" && b == "Kitchen"
    ensures PlainWord(a) && PlainWord(b)
    ensures ToLower(a) == "home" && ToLower(b) == "kitchen"
  {
    LowerWord(a, "home");
    LowerWord(b, "kitchen");
  }

  lemma HomeKitchenSlugs(x: string, y: string)
    requires x == "home" && y == "kitchen"
    ensures x + "--" + y == "home--kitchen"
    ensures x + "-" + y == "home-kitchen"
  {
  }

  /**
   * The catalog's "Home & Kitchen" becomes "home--kitchen" as written, which the slug
   * "home-kitchen" does not contain; the corrected normalisation gives the slug itself.
   */
  lemma HomeAndKitchenCounterexample(a: string, b: string, slug: string)
    requires a == "Home" && b == "Kitchen" && slug == "home-kitchen"
    ensures a + " & " + b == "Home & Kitchen"
    ensures NormaliseCategoryAsWritten(a + " & " + b) == "home--kitchen"
    ensures !Contains(slug, NormaliseCategoryAsWritten(a + " & " + b))
    ensures NormaliseCategory(a + " & " + b) == slug
    ensures Contains(slug, NormaliseCategory(a + " & " + b))
  {
    HomeKitchenWords(a, b);
    AmpersandCategoryMismatch(a, b);
    HomeKitchenSlugs(ToLower(a), ToLower(b));
    ContainsSelf(slug);
  }

  /** The slug "a-b" built from lower-cased words is already lower-case. */
  lemma LowerSlug(a: string, b: string)
    ensures ToLower(ToLower(a) + "-" + ToLower(b)) == ToLower(a) + "-" + ToLower(b)
  {
    ToLowerAppend(ToLower(a) + "-", ToLower(b));
    ToLowerAppend(ToLower(a), "-");
    ToLowerIdempotent(a);
    ToLowerIdempotent(b);
    assert ToLower("-") == "-";
  }

  /**
   * A catalog of one product whose category is the slug "a-b": searching it by "A & B" returns
   * nothing as written, and that product when corrected.
   */
  lemma AmpersandSearchSingle(a: string, b: string, p: Product)
    requires PlainWord(a) && PlainWord(b) && p.category == ToLower(a) + "-" + ToLower(b)
    ensures SearchProducts([p], None, Some(a + " & " + b)) == []
    ensures SearchProductsCorrected([p], None, Some(a + " & " + b)) == [p]
  {
    LowerSlug(a, b);
    AmpersandSearch([p], a, b);
    SearchProductsSpec([p], None, Some(a + " & " + b));
    SearchProductsCorrectedSpec([p], None, Some(a + " & " + b));
    var r := SearchProducts([p], None, Some(a + " & " + b));
    var c := SearchProductsCorrected([p], None, Some(a + " & " + b));
    SubsequenceLength(r, [p]);
    SubsequenceLength(c, [p]);
  }

  /**
   * `/products/search?category=Home & Kitchen` over a catalog holding one "home-kitchen"
   * product returns nothing as written; the corrected search returns that product.
   */
  lemma HomeKitchenSearch(a: string, b: string, p: Product)
    requires a == "Home" && b == "Kitchen" && p.category == "home-kitchen"
    ensures SearchProducts([p], None, Some(a + " & " + b)) == []
    ensures SearchProductsCorrected([p], None, Some(a + " & " + b)) == [p]
  {
    HomeKitchenWords(a, b);
    HomeKitchenSlugs(ToLower(a), ToLower(b));
    AmpersandSearchSingle(a, b, p);
  }

  lemma {:induction false} RemoveCharAppend(a: string, b: string, c: char)
    ensures RemoveChar(a + b, c) == RemoveChar(a, c) + RemoveChar(b, c)
    decreases |a|
  {
    if a == [] {
      assert a + b == b;
    } else {
      var ab := a + b;
      var head: string := if a[0] == c then [] else [a[0]];
      assert ab[0] == a[0] && ab[1..] == a[1..] + b;
      assert RemoveChar(ab, c) == head + RemoveChar(a[1..] + b, c);
      RemoveCharAppend(a[1..], b, c);
      assert RemoveChar(a, c) == head + RemoveChar(a[1..], c);
      assert head + (RemoveChar(a[1..], c) + RemoveChar(b, c)) == (head + RemoveChar(a[1..], c)) + RemoveChar(b, c);
    }
  }

  lemma {:induction false} CollapseAfterWord(a: string, b: string, afterSpace: bool)
    requires a != [] && ' ' !in a
    ensures CollapseSpaces(a + b, afterSpace) == a + CollapseSpaces(b, false)
    decreases |a|
  {
    var ab := a + b;
    assert ab[0] == a[0] != ' ';
    assert CollapseSpaces(ab, afterSpace) == [a[0]] + CollapseSpaces(ab[1..], false);
    if |a| > 1 {
      assert ab[1..] == a[1..] + b;
      CollapseAfterWord(a[1..], b, false);
      assert a == [a[0]] + a[1..];
    } else {
      assert ab[1..] == b;
    }
  }

  function InCategory(normalised: string): Product -> bool {
    (p: Product) => Contains(ToLower(p.category), normalised)
  }

  function MatchesQuery(queryLower: string): Product -> bool {
    (p: Product) => Contains(ToLower(p.title), queryLower) || Contains(ToLower(p.category), queryLower)
  }

  /**
   * A product passes the category filter: its lower-cased category contains the argument as
   * `normalise` rewrites it.
   */
  predicate CategoryKeeps(p: Product, category: Option<string>, normalise: string -> string) {
    Filters(category) ==> Contains(ToLower(p.category), normalise(category.value))
  }

  /** A product passes the query filter: the lower-cased query is in its lower-cased title or category. */
  predicate QueryKeeps(p: Product, q: Option<string>) {
    Truthy(q) ==> Contains(ToLower(p.title), ToLower(q.value)) || Contains(ToLower(p.category), ToLower(q.value))
  }

  /** The category stage of `search_products`: a sub-list holding exactly the matching products. */
  function ByCategory(catalog: seq<Product>, category: Option<string>, normalise: string -> string): (r: seq<Product>)
    ensures IsSubsequence(r, catalog)
    ensures forall i :: 0 <= i < |r| ==> r[i] in catalog && CategoryKeeps(r[i], category, normalise)
    ensures forall i :: 0 <= i < |catalog| && CategoryKeeps(catalog[i], category, normalise) ==> catalog[i] in r
  {
    if Filters(category) then
      FilterIsSubsequence(catalog, InCategory(normalise(category.value)));
      Filter(catalog, InCategory(normalise(category.value)))
    else
      SubsequenceRefl(catalog);
      catalog
  }

  /** The two stages of `search_products`, with the category argument rewritten by `normalise`. */
  function SearchWith(catalog: seq<Product>, q: Option<string>, category: Option<string>,
                      normalise: string -> string): seq<Product>
  {
    var byCategory := ByCategory(catalog, category, normalise);
    if Truthy(q) then Filter(byCategory, MatchesQuery(ToLower(q.value))) else byCategory
  }

  /** `search_products(q, category)` as written. */
  function SearchProducts(catalog: seq<Product>, q: Option<string>, category: Option<string>): seq<Product> {
    SearchWith(catalog, q, category, NormaliseCategoryAsWritten)
  }

  /** `search_products(q, category)` with the corrected category normalisation. */
  function SearchProductsCorrected(catalog: seq<Product>, q: Option<string>, category: Option<string>): seq<Product> {
    SearchWith(catalog, q, category, NormaliseCategory)
  }

  /** A product passes search when it passes both the category and the query filter. */
  predicate SearchKeeps(p: Product, q: Option<string>, category: Option<string>, normalise: string -> string) {
    CategoryKeeps(p, category, normalise) && QueryKeeps(p, q)
  }

  lemma SearchResultKept(catalog: seq<Product>, q: Option<string>, category: Option<string>,
                         normalise: string -> string)
    ensures var r := SearchWith(catalog, q, category, normalise);
      forall i :: 0 <= i < |r| ==> SearchKeeps(r[i], q, category, normalise)
  {
    var byCategory := ByCategory(catalog, category, normalise);
    var r := SearchWith(catalog, q, category, normalise);
    forall i | 0 <= i < |r| ensures SearchKeeps(r[i], q, category, normalise) {
      assert r[i] in byCategory;
      var k :| 0 <= k < |byCategory| && byCategory[k] == r[i];
      assert CategoryKeeps(byCategory[k], category, normalise);
    }
  }

  lemma SearchResultComplete(catalog: seq<Product>, q: Option<string>, category: Option<string>,
                             normalise: string -> string)
    ensures var r := SearchWith(catalog, q, category, normalise);
      forall i :: 0 <= i < |catalog| && SearchKeeps(catalog[i], q, category, normalise) ==> catalog[i] in r
  {
    var byCategory := ByCategory(catalog, category, normalise);
    var r := SearchWith(catalog, q, category, normalise);
    forall i | 0 <= i < |catalog| && SearchKeeps(catalog[i], q, category, normalise) ensures catalog[i] in r {
      assert CategoryKeeps(catalog[i], category, normalise);
      assert catalog[i] in byCategory;
      var k :| 0 <= k < |byCategory| && byCategory[k] == catalog[i];
    }
  }

  /**
   * Whatever the normalisation, the search result is an order-preserving sub-list of the
   * catalog holding exactly the products that pass the category filter (normalised category
   * contained in the lower-cased category) and the query filter (lower-cased query in the
   * lower-cased title or category).
   */
  lemma SearchWithSpec(catalog: seq<Product>, q: Option<string>, category: Option<string>,
                       normalise: string -> string)
    ensures var r := SearchWith(catalog, q, category, normalise);
      && IsSubsequence(r, catalog)
      && (forall i :: 0 <= i < |r| ==> SearchKeeps(r[i], q, category, normalise))
      && (forall i :: 0 <= i < |catalog| && SearchKeeps(catalog[i], q, category, normalise) ==> catalog[i] in r)
  {
    var byCategory := ByCategory(catalog, category, normalise);
    if Truthy(q) {
      var f := MatchesQuery(ToLower(q.value));
      FilterIsSubsequence(byCategory, f);
      SubsequenceTransitive(Filter(byCategory, f), byCategory, catalog);
    }
    SearchResultKept(catalog, q, category, normalise);
    SearchResultComplete(catalog, q, category, normalise);
  }

  /** The search as written keeps, in order, exactly the products passing server.py's two filters. */
  lemma SearchProductsSpec(catalog: seq<Product>, q: Option<string>, category: Option<string>)
    ensures var r := SearchProducts(catalog, q, category);
      && IsSubsequence(r, catalog)
      && (forall i :: 0 <= i < |r| ==> SearchKeeps(r[i], q, category, NormaliseCategoryAsWritten))
      && (forall i :: 0 <= i < |catalog| && SearchKeeps(catalog[i], q, category, NormaliseCategoryAsWritten) ==> catalog[i] in r)
  {
    SearchWithSpec(catalog, q, category, NormaliseCategoryAsWritten);
  }

  /** The corrected search keeps, in order, exactly the products passing the corrected filters. */
  lemma SearchProductsCorrectedSpec(catalog: seq<Product>, q: Option<string>, category: Option<string>)
    ensures var r := SearchProductsCorrected(catalog, q, category);
      && IsSubsequence(r, catalog)
      && (forall i :: 0 <= i < |r| ==> SearchKeeps(r[i], q, category, NormaliseCategory))
      && (forall i :: 0 <= i < |catalog| && SearchKeeps(catalog[i], q, category, NormaliseCategory) ==> catalog[i] in r)
  {
    SearchWithSpec(catalog, q, category, NormaliseCategory);
  }

  /** "A & B" is a category argument that filters. */
  lemma AmpersandFilters(a: string, b: string)
    requires PlainWord(a) && PlainWord(b)
    ensures Filters(Some(a + " & " + b))
  {
    var c := a + " & " + b;
    assert |c| == |a| + 3 + |b|;
  }

  /**
   * Searching by a category "A & B" with no query: as written, a product whose category is the
   * slug "a-b" is never returned; corrected, it always is.
   */
  lemma AmpersandSearch(catalog: seq<Product>, a: string, b: string)
    requires PlainWord(a) && PlainWord(b)
    ensures forall i :: 0 <= i < |catalog| && ToLower(catalog[i].category) == ToLower(a) + "-" + ToLower(b) ==>
      && catalog[i] !in SearchProducts(catalog, None, Some(a + " & " + b))
      && catalog[i] in SearchProductsCorrected(catalog, None, Some(a + " & " + b))
  {
    var category := Some(a + " & " + b);
    var slug := ToLower(a) + "-" + ToLower(b);
    AmpersandFilters(a, b);
    AmpersandCategoryMismatch(a, b);
    ContainsSelf(slug);
    SearchProductsSpec(catalog, None, category);
    SearchProductsCorrectedSpec(catalog, None, category);
  }

  /** `next((p for p in PRODUCTS if p["id"] == product_id), None)`. */
  function FindProduct(catalog: seq<Product>, id: int): (r: Option<Product>)
    ensures r.None? <==> !HasProduct(catalog, id)
    ensures r.Some? ==> exists k :: 0 <= k < |catalog| && catalog[k] == r.value && r.value.id == id &&
                                    (forall j :: 0 <= j < k ==> catalog[j].id != id)
  {
    if catalog == [] then None
    else if catalog[0].id == id then Some(catalog[0])
    else
      var r := FindProduct(catalog[1..], id);
      assert r.Some? ==> exists k :: 0 <= k < |catalog| && catalog[k] == r.value && r.value.id == id &&
                                      (forall j :: 0 <= j < k ==> catalog[j].id != id) by {
        if r.Some? {
          var k :| 0 <= k < |catalog[1..]| && catalog[1..][k] == r.value && r.value.id == id &&
                   (forall j :: 0 <= j < k ==> catalog[1..][j].id != id);
          assert catalog[k + 1] == r.value;
          assert forall j :: 0 <= j < k + 1 ==> catalog[j].id != id by {
            forall j | 0 <= j < k + 1 ensures catalog[j].id != id {
              if j > 0 { assert catalog[j] == catalog[1..][j - 1]; }
            }
          }
        }
      }
      assert !HasProduct(catalog[1..], id) ==> !HasProduct(catalog, id) by {
        if !HasProduct(catalog[1..], id) {
          forall j | 0 <= j < |catalog| ensures catalog[j].id != id {
            if j > 0 { assert catalog[j] == catalog[1..][j - 1]; }
          }
        }
      }
      r
  }

  /** `get_product(product_id)`: the first product with that id, or 404 "Product not found". */
  function GetProduct(catalog: seq<Product>, id: int): (r: Response<Product>)
    ensures r.Ok? ==> r.value in catalog && r.value.id == id
    ensures r.HttpError? <==> !HasProduct(catalog, id)
    ensures r.HttpError? ==> r == HttpError(404, "Product not found")
  {
    match FindProduct(catalog, id)
    case Some(p) => Ok(p)
    case None => HttpError(404, "Product not found")
  }

  // ================================================================ cart collection

  datatype CartRecord = CartRecord(id: string, productId: int, quantity: int, sessionId: string, createdAt: nat)

  /** `CartItemCreate`: the body of `POST /cart`; the quantity defaults to 1. */
  datatype CartItemCreate = CartItemCreate(productId: int, quantity: int, sessionId: string)

  predicate IsPair(r: CartRecord, sessionId: string, productId: int) {
    r.sessionId == sessionId && r.productId == productId
  }

  /** At most one record per (session, product). */
  predicate UniquePairs(records: seq<CartRecord>) {
    forall i, j :: 0 <= i < j < |records| ==>
      !(records[i].sessionId == records[j].sessionId && records[i].productId == records[j].productId)
  }

  /** `find_one({session_id, product_id})`: the index of the first matching record. */
  function FindRecord(records: seq<CartRecord>, sessionId: string, productId: int): (k: Option<nat>)
    ensures k.Some? ==> k.value < |records| && IsPair(records[k.value], sessionId, productId) &&
                        (forall j :: 0 <= j < k.value ==> !IsPair(records[j], sessionId, productId))
    ensures k.None? ==> forall j :: 0 <= j < |records| ==> !IsPair(records[j], sessionId, productId)
  {
    if records == [] then None
    else if IsPair(records[0], sessionId, productId) then Some(0)
    else
      match FindRecord(records[1..], sessionId, productId)
      case Some(k) => Some(k + 1)
      case None => None
  }

  /** `k` is the position of the first record of the (session, product) pair. */
  predicate FirstRecord(records: seq<CartRecord>, sessionId: string, productId: int, k: int) {
    && 0 <= k < |records| && IsPair(records[k], sessionId, productId)
    && forall j :: 0 <= j < k ==> !IsPair(records[j], sessionId, productId)
  }

  /** The quantity held for one (session, product) pair, summed over its records. */
  function PairQuantity(records: seq<CartRecord>, sessionId: string, productId: int): int {
    if records == [] then 0
    else (if IsPair(records[0], sessionId, productId) then records[0].quantity else 0)
         + PairQuantity(records[1..], sessionId, productId)
  }

  /** The collection after `add_to_cart`: `$inc` on the first matching record, else an insert. */
  function AddToCartRecords(records: seq<CartRecord>, item: CartItemCreate, newId: string, now: nat): seq<CartRecord> {
    match FindRecord(records, item.sessionId, item.productId)
    case Some(k) => records[k := records[k].(quantity := records[k].quantity + item.quantity)]
    case None => records + [CartRecord(newId, item.productId, item.quantity, item.sessionId, now)]
  }

  /** `delete_one({session_id, product_id})`. */
  function DeleteOne(records: seq<CartRecord>, sessionId: string, productId: int): seq<CartRecord> {
    match FindRecord(records, sessionId, productId)
    case Some(k) => records[..k] + records[k + 1..]
    case None => records
  }

  function SessionIsNot(sessionId: string): CartRecord -> bool {
    (r: CartRecord) => r.sessionId != sessionId
  }

  function SessionIs(sessionId: string): CartRecord -> bool {
    (r: CartRecord) => r.sessionId == sessionId
  }

  /** `delete_many({session_id})`. */
  function DeleteSession(records: seq<CartRecord>, sessionId: string): seq<CartRecord> {
    Filter(records, SessionIsNot(sessionId))
  }

  /** The collection after `update_cart_quantity`: delete at 0 or below, else `$set` on the first match. */
  function UpdateCartRecords(records: seq<CartRecord>, sessionId: string, productId: int, quantity: int): seq<CartRecord> {
    if quantity <= 0 then DeleteOne(records, sessionId, productId)
    else
      match FindRecord(records, sessionId, productId)
      case Some(k) => records[k := records[k].(quantity := quantity)]
      case None => records
  }

  lemma {:induction false} PairQuantityUpdate(records: seq<CartRecord>, k: nat, x: CartRecord, sessionId: string, productId: int)
    requires k < |records|
    ensures PairQuantity(records[k := x], sessionId, productId) ==
      PairQuantity(records, sessionId, productId)
      - (if IsPair(records[k], sessionId, productId) then records[k].quantity else 0)
      + (if IsPair(x, sessionId, productId) then x.quantity else 0)
    decreases k
  {
    if k > 0 {
      assert records[k := x][1..] == records[1..][k - 1 := x];
      PairQuantityUpdate(records[1..], k - 1, x, sessionId, productId);
    } else {
      assert records[k := x][1..] == records[1..];
    }
  }

  lemma {:induction false} PairQuantityAppend(a: seq<CartRecord>, b: seq<CartRecord>, sessionId: string, productId: int)
    ensures PairQuantity(a + b, sessionId, productId) == PairQuantity(a, sessionId, productId) + PairQuantity(b, sessionId, productId)
    decreases |a|
  {
    if a == [] {
      assert a + b == b;
    } else {
      assert (a + b)[1..] == a[1..] + b;
      PairQuantityAppend(a[1..], b, sessionId, productId);
    }
  }

  /**
   * `add_to_cart` raises the quantity held for its (session, product) pair by the requested
   * quantity and leaves every other pair's quantity unchanged.
   */
  lemma AddToCartQuantities(records: seq<CartRecord>, item: CartItemCreate, newId: string, now: nat, sessionId: string, productId: int)
    ensures PairQuantity(AddToCartRecords(records, item, newId, now), sessionId, productId) ==
      PairQuantity(records, sessionId, productId) +
      (if sessionId == item.sessionId && productId == item.productId then item.quantity else 0)
  {
    match FindRecord(records, item.sessionId, item.productId)
    case Some(k) =>
      PairQuantityUpdate(records, k, records[k].(quantity := records[k].quantity + item.quantity), sessionId, productId);
    case None =>
      var rec := CartRecord(newId, item.productId, item.quantity, item.sessionId, now);
      PairQuantityAppend(records, [rec], sessionId, productId);
      assert [rec][1..] == [];
  }

  /** `add_to_cart` keeps at most one record per (session, product) pair. */
  lemma AddToCartKeepsUniquePairs(records: seq<CartRecord>, item: CartItemCreate, newId: string, now: nat)
    requires UniquePairs(records)
    ensures UniquePairs(AddToCartRecords(records, item, newId, now))
    ensures |AddToCartRecords(records, item, newId, now)| == |records| + (if FindRecord(records, item.sessionId, item.productId).None? then 1 else 0)
  {
    var r := AddToCartRecords(records, item, newId, now);
    if FindRecord(records, item.sessionId, item.productId).None? {
      forall i, j | 0 <= i < j < |r|
        ensures !(r[i].sessionId == r[j].sessionId && r[i].productId == r[j].productId)
      {
        if j == |records| { assert r[i] == records[i] && !IsPair(records[i], item.sessionId, item.productId); }
      }
    }
  }

  /**
   * `add_to_cart` touches only the pair's first record, raising its quantity by the request;
   * with no record of the pair, the new record (fresh id, request's fields, clock reading) goes
   * at the end of the collection and every earlier record is kept.
   */
  lemma AddToCartFrame(records: seq<CartRecord>, item: CartItemCreate, newId: string, now: nat)
    ensures var r := AddToCartRecords(records, item, newId, now);
      && ((forall j :: 0 <= j < |records| ==> !IsPair(records[j], item.sessionId, item.productId)) ==>
            r == records + [CartRecord(newId, item.productId, item.quantity, item.sessionId, now)])
      && forall k :: FirstRecord(records, item.sessionId, item.productId, k) ==>
            && |r| == |records|
            && r[k] == records[k].(quantity := records[k].quantity + item.quantity)
            && forall i :: 0 <= i < |records| && i != k ==> r[i] == records[i]
  {
    match FindRecord(records, item.sessionId, item.productId)
    case None =>
    case Some(k) =>
  }

  /** `b` is the record `a` with, at most, another quantity. */
  predicate SameRecord(a: CartRecord, b: CartRecord) {
    a.id == b.id && a.productId == b.productId && a.sessionId == b.sessionId && a.createdAt == b.createdAt
  }

  /** `x` is one of `records`, up to its quantity. */
  predicate HasOrigin(records: seq<CartRecord>, x: CartRecord) {
    exists j :: 0 <= j < |records| && SameRecord(records[j], x)
  }

  /** Every record of `r` is a record of `records`, up to its quantity. */
  predicate FromOld(r: seq<CartRecord>, records: seq<CartRecord>) {
    forall i :: 0 <= i < |r| ==> HasOrigin(records, r[i])
  }

  /** Deleting the pair's only record leaves records that were there, unique, and none of the pair. */
  lemma DeleteAtFacts(records: seq<CartRecord>, k: nat, sessionId: string, productId: int)
    requires UniquePairs(records) && k < |records| && IsPair(records[k], sessionId, productId)
    ensures var r := records[..k] + records[k + 1..];
      && FromOld(r, records)
      && UniquePairs(r)
      && (forall i :: 0 <= i < |r| ==> !IsPair(r[i], sessionId, productId))
  {
    var r := records[..k] + records[k + 1..];
    assert forall i :: 0 <= i < k ==> r[i] == records[i];
    assert forall i :: k <= i < |r| ==> r[i] == records[i + 1];
    forall i | 0 <= i < |r| ensures HasOrigin(records, r[i]) {
      if i < k { assert SameRecord(records[i], r[i]); } else { assert SameRecord(records[i + 1], r[i]); }
    }
    forall i | 0 <= i < |r| ensures !IsPair(r[i], sessionId, productId) {
      if k <= i {
        assert !(records[k].sessionId == records[i + 1].sessionId && records[k].productId == records[i + 1].productId);
      }
    }
    forall i, j | 0 <= i < j < |r| ensures !(r[i].sessionId == r[j].sessionId && r[i].productId == r[j].productId) {
      var i' := if i < k then i else i + 1;
      var j' := if j < k then j else j + 1;
      assert r[i] == records[i'] && r[j] == records[j'] && i' < j';
    }
  }

  /** Changing one record's quantity keeps every record's origin and the pairs unique. */
  lemma SetQuantityAtFacts(records: seq<CartRecord>, k: nat, quantity: int)
    requires UniquePairs(records) && k < |records|
    ensures var r := records[k := records[k].(quantity := quantity)];
      FromOld(r, records) && UniquePairs(r)
  {
    var r := records[k := records[k].(quantity := quantity)];
    forall i | 0 <= i < |r| ensures HasOrigin(records, r[i]) {
      assert SameRecord(records[i], r[i]);
    }
    forall i, j | 0 <= i < j < |r| ensures !(r[i].sessionId == r[j].sessionId && r[i].productId == r[j].productId) {
      assert r[i].sessionId == records[i].sessionId && r[i].productId == records[i].productId;
      assert r[j].sessionId == records[j].sessionId && r[j].productId == records[j].productId;
    }
  }

  lemma FromOldRefl(records: seq<CartRecord>)
    ensures FromOld(records, records)
  {
    forall i | 0 <= i < |records| ensures HasOrigin(records, records[i]) {
      assert SameRecord(records[i], records[i]);
    }
  }

  /**
   * `update_cart_quantity` never creates a record: every record after it was there before up
   * to its quantity, and a quantity of 0 or below removes the pair's record.
   */
  lemma UpdateCartNeverCreates(records: seq<CartRecord>, sessionId: string, productId: int, quantity: int)
    requires UniquePairs(records)
    ensures var r := UpdateCartRecords(records, sessionId, productId, quantity);
      && |r| <= |records|
      && FromOld(r, records)
      && UniquePairs(r)
      && (quantity <= 0 ==> forall i :: 0 <= i < |r| ==> !IsPair(r[i], sessionId, productId))
      && (quantity > 0 ==> PairQuantity(r, sessionId, productId) == if FindRecord(records, sessionId, productId).Some? then quantity else 0)
  {
    UpdateCartFrame(records, sessionId, productId, quantity);
    match FindRecord(records, sessionId, productId)
    case None =>
      FromOldRefl(records);
      if quantity > 0 { PairQuantityZero(records, sessionId, productId); }
    case Some(k) =>
      if quantity <= 0 {
        DeleteAtFacts(records, k, sessionId, productId);
      } else {
        SetQuantityAtFacts(records, k, quantity);
        PairQuantityUpdate(records, k, records[k].(quantity := quantity), sessionId, productId);
        UniquePairQuantity(records, k, sessionId, productId);
      }
  }

  /**
   * `update_cart_quantity` touches only the pair's first record: at 0 or below it is
   * `remove_from_cart`'s `delete_one`; otherwise that record alone gets the new quantity; with
   * no record of the pair the collection is unchanged.
   */
  lemma UpdateCartFrame(records: seq<CartRecord>, sessionId: string, productId: int, quantity: int)
    ensures var r := UpdateCartRecords(records, sessionId, productId, quantity);
      && (quantity <= 0 ==> r == DeleteOne(records, sessionId, productId))
      && ((forall j :: 0 <= j < |records| ==> !IsPair(records[j], sessionId, productId)) ==> r == records)
      && (quantity > 0 ==> |r| == |records|)
      && (quantity > 0 ==> forall k :: FirstRecord(records, sessionId, productId, k) ==>
            && r[k] == records[k].(quantity := quantity)
            && forall i :: 0 <= i < |records| && i != k ==> r[i] == records[i])
  {
    match FindRecord(records, sessionId, productId)
    case None =>
    case Some(k) =>
  }

  lemma {:induction false} PairQuantityZero(records: seq<CartRecord>, sessionId: string, productId: int)
    requires forall j :: 0 <= j < |records| ==> !IsPair(records[j], sessionId, productId)
    ensures PairQuantity(records, sessionId, productId) == 0
    decreases |records|
  {
    if records != [] {
      PairQuantityZero(records[1..], sessionId, productId);
    }
  }

  lemma UniquePairQuantity(records: seq<CartRecord>, k: nat, sessionId: string, productId: int)
    requires UniquePairs(records) && k < |records| && IsPair(records[k], sessionId, productId)
    ensures PairQuantity(records, sessionId, productId) == records[k].quantity
  {
    assert records == records[..k] + [records[k]] + records[k + 1..];
    PairQuantityAppend(records[..k] + [records[k]], records[k + 1..], sessionId, productId);
    PairQuantityAppend(records[..k], [records[k]], sessionId, productId);
    forall j | 0 <= j < |records[..k]| ensures !IsPair(records[..k][j], sessionId, productId) {
      assert records[..k][j] == records[j];
    }
    PairQuantityZero(records[..k], sessionId, productId);
    var tail := records[k + 1..];
    forall j | 0 <= j < |tail| ensures !IsPair(tail[j], sessionId, productId) {
      assert tail[j] == records[k + 1 + j];
    }
    PairQuantityZero(tail, sessionId, productId);
    assert [records[k]][1..] == [];
  }

  /** `clear_cart` removes every record of the session and no other, keeping their order. */
  lemma ClearCartSpec(records: seq<CartRecord>, sessionId: string)
    ensures var r := DeleteSession(records, sessionId);
      && IsSubsequence(r, records)
      && (forall i :: 0 <= i < |r| ==> r[i].sessionId != sessionId)
      && (forall i :: 0 <= i < |records| && records[i].sessionId != sessionId ==> records[i] in r)
  {
    FilterIsSubsequence(records, SessionIsNot(sessionId));
  }

  /**
   * `remove_from_cart` removes at most one record: the first one of the pair, if any, with the
   * others kept in order.
   */
  lemma RemoveFromCartSpec(records: seq<CartRecord>, sessionId: string, productId: int)
    ensures var r := DeleteOne(records, sessionId, productId);
      && |r| == |records| - (if FindRecord(records, sessionId, productId).Some? then 1 else 0)
      && multiset(r) <= multiset(records)
      && (FindRecord(records, sessionId, productId).None? ==> r == records)
      && forall k :: FirstRecord(records, sessionId, productId, k) ==>
           && (forall i :: 0 <= i < k ==> r[i] == records[i])
           && (forall i :: k < i < |records| ==> r[i - 1] == records[i])
  {
    match FindRecord(records, sessionId, productId)
    case Some(k) =>
      DeleteAtMultiset(records, k);
      var r := records[..k] + records[k + 1..];
      assert forall i :: 0 <= i < k ==> r[i] == records[i];
      assert forall i :: k < i < |records| ==> r[i - 1] == records[i];
    case None =>
  }

  lemma DeleteAtMultiset(records: seq<CartRecord>, k: nat)
    requires k < |records|
    ensures multiset(records[..k] + records[k + 1..]) + multiset{records[k]} == multiset(records)
  {
    assert records == records[..k] + [records[k]] + records[k + 1..];
  }

  /** `get_cart`'s source records: the session's first 100 (`to_list(100)`). */
  function SessionRecords(records: seq<CartRecord>, sessionId: string): (r: seq<CartRecord>)
    ensures var mine := Filter(records, SessionIs(sessionId));
      && |r| == (if |mine| <= 100 then |mine| else 100)
      && r == mine[..|r|]
    ensures forall i :: 0 <= i < |r| ==> r[i].sessionId == sessionId && r[i] in records
  {
    var mine := Filter(records, SessionIs(sessionId));
    if |mine| <= 100 then mine else mine[..100]
  }

  /** `line` carries the product id and the quantity of one of `records`. */
  predicate JoinedFrom(records: seq<CartRecord>, line: CartLine) {
    exists j :: 0 <= j < |records| && records[j].productId == line.product.id && records[j].quantity == line.quantity
  }

  lemma JoinedFromTail(records: seq<CartRecord>, line: CartLine)
    requires records != [] && JoinedFrom(records[1..], line)
    ensures JoinedFrom(records, line)
  {
    var j :| 0 <= j < |records[1..]| && records[1..][j].productId == line.product.id && records[1..][j].quantity == line.quantity;
    assert records[j + 1] == records[1..][j];
  }

  /** Each record joined with its catalog product; records whose product is missing are dropped. */
  function JoinProducts(records: seq<CartRecord>, catalog: seq<Product>): (r: seq<CartLine>)
    ensures |r| <= |records|
    ensures forall i :: 0 <= i < |r| ==> r[i].product in catalog && JoinedFrom(records, r[i])
    ensures (forall j :: 0 <= j < |records| ==> HasProduct(catalog, records[j].productId)) ==> |r| == |records|
  {
    if records == [] then []
    else
      var rest := JoinProducts(records[1..], catalog);
      JoinedFromAllTail(records, rest);
      match FindProduct(catalog, records[0].productId)
      case Some(p) =>
        var line := CartLine(p, records[0].quantity);
        assert JoinedFrom(records, line) by { assert records[0].productId == line.product.id; }
        [line] + rest
      case None => rest
  }

  lemma JoinedFromAllTail(records: seq<CartRecord>, lines: seq<CartLine>)
    requires records != []
    requires forall i :: 0 <= i < |lines| ==> JoinedFrom(records[1..], lines[i])
    ensures forall i :: 0 <= i < |lines| ==> JoinedFrom(records, lines[i])
  {
    forall i | 0 <= i < |lines| ensures JoinedFrom(records, lines[i]) {
      JoinedFromTail(records, lines[i]);
    }
  }

  /** A record whose product is in the catalog: `get_cart` turns exactly these into lines. */
  function ProductKnown(catalog: seq<Product>): CartRecord -> bool {
    (rec: CartRecord) => HasProduct(catalog, rec.productId)
  }

  /**
   * The i-th line carries the first catalog product with the i-th record's product id, and that
   * record's quantity.
   */
  predicate LinesMatch(lines: seq<CartLine>, known: seq<CartRecord>, catalog: seq<Product>) {
    && |lines| == |known|
    && forall i :: 0 <= i < |lines| ==>
         FindProduct(catalog, known[i].productId) == Some(lines[i].product) && lines[i].quantity == known[i].quantity
  }

  lemma LinesMatchCons(line: CartLine, rec: CartRecord, lines: seq<CartLine>, known: seq<CartRecord>, catalog: seq<Product>)
    requires LinesMatch(lines, known, catalog)
    requires FindProduct(catalog, rec.productId) == Some(line.product) && line.quantity == rec.quantity
    ensures LinesMatch([line] + lines, [rec] + known, catalog)
  {
    var l2, k2 := [line] + lines, [rec] + known;
    forall i | 0 <= i < |l2|
      ensures FindProduct(catalog, k2[i].productId) == Some(l2[i].product) && l2[i].quantity == k2[i].quantity
    {
      if i > 0 {
        assert l2[i] == lines[i - 1] && k2[i] == known[i - 1];
      }
    }
  }

  /**
   * The join keeps record order: its i-th line comes from the i-th record whose product is in
   * the catalog, carrying the first catalog product with that id and the record's quantity.
   */
  lemma {:induction false} JoinProductsInOrder(records: seq<CartRecord>, catalog: seq<Product>)
    ensures LinesMatch(JoinProducts(records, catalog), Filter(records, ProductKnown(catalog)), catalog)
    decreases |records|
  {
    if records != [] {
      JoinProductsInOrder(records[1..], catalog);
      var rest, tail := JoinProducts(records[1..], catalog), Filter(records[1..], ProductKnown(catalog));
      var known := Filter(records, ProductKnown(catalog));
      match FindProduct(catalog, records[0].productId)
      case Some(p) =>
        var line := CartLine(p, records[0].quantity);
        assert known == [records[0]] + tail;
        assert JoinProducts(records, catalog) == [line] + rest;
        LinesMatchCons(line, records[0], rest, tail, catalog);
      case None =>
        assert known == tail;
        assert JoinProducts(records, catalog) == rest;
    }
  }

  /** `get_cart(session_id)`. */
  function GetCart(records: seq<CartRecord>, catalog: seq<Product>, sessionId: string): seq<CartLine> {
    JoinProducts(SessionRecords(records, sessionId), catalog)
  }

  /**
   * `get_cart` returns at most 100 lines; each is a catalog product with the quantity of one
   * of the session's records for that product.
   */
  lemma GetCartSpec(records: seq<CartRecord>, catalog: seq<Product>, sessionId: string)
    ensures var r := GetCart(records, catalog, sessionId);
      && |r| <= 100
      && (forall i :: 0 <= i < |r| ==> r[i].product in catalog)
      && (forall i :: 0 <= i < |r| ==> JoinedFrom(Filter(records, SessionIs(sessionId)), r[i]))
    ensures var r, known := GetCart(records, catalog, sessionId),
                            Filter(SessionRecords(records, sessionId), ProductKnown(catalog));
      && |r| == |known|
      && forall i :: 0 <= i < |r| ==>
           FindProduct(catalog, known[i].productId) == Some(r[i].product) && r[i].quantity == known[i].quantity
  {
    JoinProductsInOrder(SessionRecords(records, sessionId), catalog);
    var mine := Filter(records, SessionIs(sessionId));
    var src := SessionRecords(records, sessionId);
    var r := GetCart(records, catalog, sessionId);
    forall i | 0 <= i < |r| ensures JoinedFrom(mine, r[i]) {
      var j :| 0 <= j < |src| && src[j].productId == r[i].product.id && src[j].quantity == r[i].quantity;
      assert src[j] == mine[j];
    }
  }

  // ================================================================ wishlist collection

  datatype WishlistRecord = WishlistRecord(id: string, productId: int, sessionId: string, addedAt: nat)

  predicate HasWishlistPair(records: seq<WishlistRecord>, sessionId: string, productId: int) {
    exists i :: 0 <= i < |records| && records[i].sessionId == sessionId && records[i].productId == productId
  }

  /** The collection after `add_to_wishlist`: insert only when the pair is not there yet. */
  function AddToWishlistRecords(records: seq<WishlistRecord>, sessionId: string, productId: int, newId: string, now: nat): seq<WishlistRecord> {
    if HasWishlistPair(records, sessionId, productId) then records
    else records + [WishlistRecord(newId, productId, sessionId, now)]
  }

  /**
   * Adding keeps every earlier record and appends one record for the pair exactly when it is
   * not there yet; adding the same (session, product) again, with any new id and time, changes
   * nothing.
   */
  lemma AddToWishlistIdempotent(records: seq<WishlistRecord>, sessionId: string, productId: int,
                                newId: string, now: nat, newId': string, now': nat)
    ensures var once := AddToWishlistRecords(records, sessionId, productId, newId, now);
      && records <= once
      && (HasWishlistPair(records, sessionId, productId) ==> once == records)
      && (!HasWishlistPair(records, sessionId, productId) ==>
            once == records + [WishlistRecord(newId, productId, sessionId, now)])
      && HasWishlistPair(once, sessionId, productId)
      && AddToWishlistRecords(once, sessionId, productId, newId', now') == once
  {
    var once := AddToWishlistRecords(records, sessionId, productId, newId, now);
    if !HasWishlistPair(records, sessionId, productId) {
      assert once[|records|].sessionId == sessionId && once[|records|].productId == productId;
    }
  }

  // ================================================================ reviews

  datatype Review = Review(
    id: string, productId: int, rating: int, title: string, content: string,
    userName: string, userId: string, createdAt: nat, verifiedPurchase: bool, helpfulCount: int)

  function FindReview(reviews: seq<Review>, reviewId: string): (k: Option<nat>)
    ensures k.Some? ==> k.value < |reviews| && reviews[k.value].id == reviewId &&
                        (forall j :: 0 <= j < k.value ==> reviews[j].id != reviewId)
    ensures k.None? ==> forall j :: 0 <= j < |reviews| ==> reviews[j].id != reviewId
  {
    if reviews == [] then None
    else if reviews[0].id == reviewId then Some(0)
    else
      match FindReview(reviews[1..], reviewId)
      case Some(k) => Some(k + 1)
      case None => None
  }

  /** `k` is the position of the first review with that id. */
  predicate FirstReview(reviews: seq<Review>, reviewId: string, k: int) {
    0 <= k < |reviews| && reviews[k].id == reviewId && forall j :: 0 <= j < k ==> reviews[j].id != reviewId
  }

  /** `mark_review_helpful`: `$inc` of +1 or -1 on the first review with that id, if any. */
  function MarkHelpful(reviews: seq<Review>, reviewId: string, helpful: bool): seq<Review> {
    match FindReview(reviews, reviewId)
    case Some(k) => reviews[k := reviews[k].(helpfulCount := reviews[k].helpfulCount + (if helpful then 1 else -1))]
    case None => reviews
  }

  /**
   * Marking changes only `helpful_count` of the first review with that id, by +1 or -1;
   * an unknown id (a review that exists only in the built-in examples) changes nothing.
   */
  lemma MarkHelpfulSpec(reviews: seq<Review>, reviewId: string, helpful: bool)
    ensures var r := MarkHelpful(reviews, reviewId, helpful);
      && |r| == |reviews|
      && (forall i :: 0 <= i < |reviews| ==> r[i].(helpfulCount := reviews[i].helpfulCount) == reviews[i])
      && (forall i :: 0 <= i < |reviews| && r[i] != reviews[i] ==>
            reviews[i].id == reviewId && r[i].helpfulCount == reviews[i].helpfulCount + (if helpful then 1 else -1))
      && ((forall i :: 0 <= i < |reviews| ==> reviews[i].id != reviewId) ==> r == reviews)
      && forall k :: FirstReview(reviews, reviewId, k) ==>
           && r[k].helpfulCount == reviews[k].helpfulCount + (if helpful then 1 else -1)
           && forall i :: 0 <= i < |reviews| && i != k ==> r[i] == reviews[i]
  {
    match FindReview(reviews, reviewId)
    case Some(k) =>
    case None =>
  }

  // ================================================================ the database

  class Database {
    var cart: seq<CartRecord>
    var wishlist: seq<WishlistRecord>
    var reviews: seq<Review>

    constructor (cart: seq<CartRecord>, wishlist: seq<WishlistRecord>, reviews: seq<Review>)
      ensures this.cart == cart && this.wishlist == wishlist && this.reviews == reviews
    {
      this.cart := cart;
      this.wishlist := wishlist;
      this.reviews := reviews;
    }

    /** `POST /cart`; `newId` and `now` stand for `uuid4()` and `utcnow()`. */
    method AddToCart(item: CartItemCreate, newId: string, now: nat) returns (message: string)
      modifies this`cart
      ensures cart == AddToCartRecords(old(cart), item, newId, now)
      ensures message == "Added to cart"
    {
      var existing := FindRecord(cart, item.sessionId, item.productId);
      if existing.Some? {
        var k := existing.value;
        cart := cart[k := cart[k].(quantity := cart[k].quantity + item.quantity)];
      } else {
        cart := cart + [CartRecord(newId, item.productId, item.quantity, item.sessionId, now)];
      }
      message := "Added to cart";
    }

    /** `GET /cart/{session_id}`. */
    method GetCartLines(catalog: seq<Product>, sessionId: string) returns (lines: seq<CartLine>)
      ensures lines == GetCart(cart, catalog, sessionId)
    {
      lines := JoinProducts(SessionRecords(cart, sessionId), catalog);
    }

    /** `DELETE /cart/{session_id}/{product_id}`. */
    method RemoveFromCart(sessionId: string, productId: int) returns (message: string)
      modifies this`cart
      ensures cart == DeleteOne(old(cart), sessionId, productId)
      ensures message == "Removed from cart"
    {
      cart := DeleteOne(cart, sessionId, productId);
      message := "Removed from cart";
    }

    /** `DELETE /cart/{session_id}`. */
    method ClearCart(sessionId: string) returns (message: string)
      modifies this`cart
      ensures cart == DeleteSession(old(cart), sessionId)
      ensures message == "Cart cleared"
    {
      cart := DeleteSession(cart, sessionId);
      message := "Cart cleared";
    }

    /** `PUT /cart/{session_id}/{product_id}?quantity=N`. */
    method UpdateCartQuantity(sessionId: string, productId: int, quantity: int) returns (message: string)
      modifies this`cart
      ensures cart == UpdateCartRecords(old(cart), sessionId, productId, quantity)
      ensures message == "Cart updated"
    {
      cart := UpdateCartRecords(cart, sessionId, productId, quantity);
      message := "Cart updated";
    }

    /** `POST /wishlist`. */
    method AddToWishlist(sessionId: string, productId: int, newId: string, now: nat) returns (message: string)
      modifies this`wishlist
      ensures wishlist == AddToWishlistRecords(old(wishlist), sessionId, productId, newId, now)
      ensures message == "Added to wishlist"
    {
      if !HasWishlistPair(wishlist, sessionId, productId) {
        wishlist := wishlist + [WishlistRecord(newId, productId, sessionId, now)];
      }
      message := "Added to wishlist";
    }

    /** `POST /reviews/{review_id}/helpful`. */
    method MarkReviewHelpful(reviewId: string, helpful: bool) returns (message: string)
      modifies this`reviews
      ensures reviews == MarkHelpful(old(reviews), reviewId, helpful)
      ensures message == "Updated"
    {
      reviews := MarkHelpful(reviews, reviewId, helpful);
      message := "Updated";
    }
  }
}

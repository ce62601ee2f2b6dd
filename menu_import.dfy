/** The menu importer (`cmd/datendownload`): it asks a delivery platform for
    a restaurant's menu and converts the vendor's categories and products
    into the catalog entries the order handler reads. The HTTP exchange,
    the JSON decoder, the hash and the number parser are not run: their
    results are parameters. */
module MenuImport {
  import opened Wrappers
  import opened Text
  import D = BestellungDefinition

  // ---------------------------------------------------------------------
  // Product name and size: the pattern `\[(.*?)\]`

  /** The first `]` at or after `i`, unless a line break comes first: the
      end of the shortest bracketed group whose body starts at `i` (`.`
      does not match a line break). */
  function CloseFrom(s: string, i: nat): (e: Option<nat>)
    decreases |s| - i
    ensures e.Some? ==> i <= e.value < |s| && s[e.value] == ']'
    ensures e.Some? ==> forall k :: i <= k < e.value ==> s[k] != ']' && s[k] != '\n'
    ensures e.None? ==> forall k :: i <= k < |s| && s[k] == ']' ==> exists m :: i <= m < k && s[m] == '\n'
  {
    if i >= |s| then None
    else if s[i] == ']' then Some(i)
    else if s[i] == '\n' then None
    else CloseFrom(s, i + 1)
  }

  /** The leftmost match at or after `i`: the positions of its `[` and
      its `]`. */
  function MatchFrom(s: string, i: nat): (m: Option<(nat, nat)>)
    decreases |s| - i
    ensures m.Some? ==> i <= m.value.0 < m.value.1 < |s| && s[m.value.0] == '[' && CloseFrom(s, m.value.0 + 1) == Some(m.value.1)
  {
    if i >= |s| then None
    else if s[i] == '[' && CloseFrom(s, i + 1).Some? then Some((i, CloseFrom(s, i + 1).value))
    else MatchFrom(s, i + 1)
  }

  /** The match is the leftmost one: every `[` in front of it (or every
      `[` at all, when there is no match) has no `]` on its line. */
  lemma {:induction false} MatchFromLeftmost(s: string, i: nat)
    decreases |s| - i
    ensures MatchFrom(s, i).Some? ==> forall k :: i <= k < MatchFrom(s, i).value.0 && s[k] == '[' ==> CloseFrom(s, k + 1).None?
    ensures MatchFrom(s, i).None? ==> forall k :: i <= k < |s| && s[k] == '[' ==> CloseFrom(s, k + 1).None?
  {
    if i < |s| && !(s[i] == '[' && CloseFrom(s, i + 1).Some?) {
      MatchFromLeftmost(s, i + 1);
    }
  }

  /** `ReplaceAll` with the empty string from position `i` on: every
      match, taken left to right without overlap, is cut out. */
  function ReplaceFrom(s: string, i: nat): (r: string)
    requires i <= |s|
    decreases |s| - i
    ensures |r| <= |s| - i
  {
    match MatchFrom(s, i)
    case None => s[i..]
    case Some(m) => s[i..m.0] + ReplaceFrom(s, m.1 + 1)
  }

  /** `seperateProductNameAndSize`: without a bracketed group the name is
      the whole text and the size is "default"; otherwise the size is the
      body of the first group and the name is the text without any
      group. */
  function SeparateProductNameAndSize(product: string): (r: (string, string))
    ensures MatchFrom(product, 0).None? ==> r == (product, "default")
    ensures MatchFrom(product, 0).Some? ==>
      var (p, e) := MatchFrom(product, 0).value;
      r.1 == product[p + 1..e] && r.0 == product[..p] + ReplaceFrom(product, e + 1)
  {
    match MatchFrom(product, 0)
    case None => (product, "default")
    case Some(m) => (ReplaceFrom(product, 0), product[m.0 + 1..m.1])
  }

  /** A name without `[` has no size. */
  lemma NoBracketNoSize(product: string)
    requires '[' !in product
    ensures SeparateProductNameAndSize(product) == (product, "default")
  {
  }

  /** The size is the shortest bracketed body: it holds no `]` and no line
      break, and it sits between the first `[` that is closed on its line
      and the next `]`. */
  lemma SizeIsFirstGroup(product: string)
    requires MatchFrom(product, 0).Some?
    ensures var (p, e) := MatchFrom(product, 0).value;
      var size := SeparateProductNameAndSize(product).1;
      product[p..e + 1] == "[" + size + "]" && ']' !in size && '\n' !in size &&
      forall k :: 0 <= k < p && product[k] == '[' ==> CloseFrom(product, k + 1).None?
  {
    MatchFromLeftmost(product, 0);
    var (p, e) := MatchFrom(product, 0).value;
    var size := product[p + 1..e];
    assert product[p..e + 1] == [product[p]] + size + [product[e]];
    forall k | 0 <= k < |size| ensures size[k] != ']' && size[k] != '\n' {
      assert size[k] == product[p + 1 + k];
    }
  }

  /** The name keeps everything in front of the first group. */
  lemma NameKeepsPrefix(product: string)
    requires MatchFrom(product, 0).Some?
    ensures var p := MatchFrom(product, 0).value.0;
      var name := SeparateProductNameAndSize(product).0;
      p <= |name| && name[..p] == product[..p]
  {
  }

  /** Once no match is left, nothing is cut. */
  lemma ReplaceNothing(s: string, i: nat)
    requires i <= |s| && MatchFrom(s, i).None?
    ensures ReplaceFrom(s, i) == s[i..]
  {
  }

  /** The group closes at the first `]` from `i` on when no `]` and no
      line break come before it. */
  lemma {:induction false} CloseAt(s: string, i: nat, e: nat)
    requires i <= e < |s| && s[e] == ']'
    requires forall k :: i <= k < e ==> s[k] != ']' && s[k] != '\n'
    decreases e - i
    ensures CloseFrom(s, i) == Some(e)
  {
    if i < e {
      CloseAt(s, i + 1, e);
    }
  }

  /** The leftmost match starts at the first `[` from `i` on when that
      `[` is closed on its line. */
  lemma {:induction false} MatchAt(s: string, i: nat, p: nat)
    requires i <= p < |s| && s[p] == '[' && CloseFrom(s, p + 1).Some?
    requires forall k :: i <= k < p ==> s[k] != '['
    decreases p - i
    ensures MatchFrom(s, i) == Some((p, CloseFrom(s, p + 1).value))
  {
    if i < p {
      MatchAt(s, i + 1, p);
    }
  }

  /** A name followed by one bracketed size, as the platform writes
      "Cola [XL]", splits into that name and that size. */
  lemma SeparateBracketedSize(name: string, size: string)
    requires '[' !in name && ']' !in size && '\n' !in size
    ensures SeparateProductNameAndSize(name + "[" + size + "]") == (name, size)
  {
    var s := name + "[" + size + "]";
    var p, e := |name|, |name| + 1 + |size|;
    forall k | p + 1 <= k < e ensures s[k] != ']' && s[k] != '\n' {
      assert s[k] == size[k - p - 1];
    }
    CloseAt(s, p + 1, e);
    forall k | 0 <= k < p ensures s[k] != '[' {
      assert s[k] == name[k];
    }
    MatchAt(s, 0, p);
    assert MatchFrom(s, 0) == Some((p, e));
    assert |s| == e + 1 && MatchFrom(s, e + 1).None?;
    assert ReplaceFrom(s, e + 1) == [];
    assert ReplaceFrom(s, 0) == s[0..p] + ReplaceFrom(s, e + 1);
    assert s[0..p] + [] == name && s[p + 1..e] == size;
    assert SeparateProductNameAndSize(s) == (ReplaceFrom(s, 0), s[p + 1..e]);
  }

  // ---------------------------------------------------------------------
  // Extra names: `strings.Replace(s, "mit ", "", -1)`

  /** Every occurrence of `pat`, taken left to right without overlap, is
      removed. */
  function RemoveAll(s: string, pat: string): (r: string)
    requires |pat| > 0
    ensures |r| <= |s|
  {
    if s == [] then []
    else if HasPrefix(s, pat) then RemoveAll(s[|pat|..], pat)
    else [s[0]] + RemoveAll(s[1..], pat)
  }

  /** A text without the pattern is kept as it is. */
  lemma {:induction false} RemoveAllAbsent(s: string, pat: string)
    requires |pat| > 0
    requires forall k :: 0 <= k < |s| ==> !HasPrefix(s[k..], pat)
    ensures RemoveAll(s, pat) == s
  {
    if s != [] {
      assert s[0..] == s;
      forall k | 0 <= k < |s[1..]| ensures !HasPrefix(s[1..][k..], pat) {
        assert s[1..][k..] == s[k + 1..];
      }
      RemoveAllAbsent(s[1..], pat);
      assert [s[0]] + s[1..] == s;
    }
  }

  /** Removal works piecewise: a leading occurrence is dropped and the rest
      is treated on its own. */
  lemma RemoveAllLeading(pat: string, rest: string)
    requires |pat| > 0
    ensures RemoveAll(pat + rest, pat) == RemoveAll(rest, pat)
  {
    assert HasPrefix(pat + rest, pat);
    assert (pat + rest)[|pat|..] == rest;
  }

  const Mit := "mit "

  /** The name of an extra: the option's name without "mit ". */
  function OptionName(name: string): string
  {
    RemoveAll(name, Mit)
  }

  // ---------------------------------------------------------------------
  // Vendor products: `PrC.UnmarshalJSON`

  /** A vendor product: its name (with the size in brackets), its price as
      text, its size variants and its menus of extra options. */
  datatype Product = Product(Name: string, Price: string, Sizes: seq<Product>, Extras: seq<ExtrasMenu>)

  datatype ExtrasMenu = ExtrasMenu(Name: string, Options: seq<Product>)

  datatype Category = Category(Name: string, Products: seq<Product>)

  /** The restaurant data of the menu answer: its name, the text of its
      first phone number and its categories. */
  datatype Rd = Rd(Name: string, Phone: string, Categories: seq<Category>)

  type Byte = b: int | 0 <= b < 256

  /** The values of `m` in the order `keys` visits them. */
  function ValuesIn<K, V>(m: map<K, V>, keys: seq<K>): (vs: seq<V>)
    requires forall k :: k in keys ==> k in m
    ensures |vs| == |keys|
    ensures forall i :: 0 <= i < |keys| ==> vs[i] == m[keys[i]]
  {
    if keys == [] then [] else ValuesIn(m, keys[..|keys| - 1]) + [m[keys[|keys| - 1]]]
  }

  /** A product list that a JSON value is decoded into. The vendor sends
      either a list or an object keyed by product id. */
  class ProductList {
    var Items: seq<Product>

    constructor (items: seq<Product>)
      ensures Items == items
    {
      Items := items;
    }

    /** `PrC.UnmarshalJSON`: a value starting with `[` (91) is taken as the
      list `asList`, one starting with `{` (123) as the object `asMap`,
      whose values are appended in the map's iteration order `keys`; any
      other first byte leaves the list alone. The decoder's own errors are
      dropped, and the result is always no error. */
    method UnmarshalJSON(data: seq<Byte>, asList: seq<Product>, asMap: map<string, Product>, keys: seq<string>)
      returns (err: Option<string>)
      requires |data| > 0
      requires Distinct(keys) && forall k :: k in asMap <==> k in keys
      modifies this
      ensures err.None?
      ensures data[0] == 91 ==> Items == asList
      ensures data[0] == 123 ==> Items == ValuesIn(asMap, keys)
      ensures data[0] != 91 && data[0] != 123 ==> Items == old(Items)
    {
      if data[0] == 91 {
        Items := asList;
      } else if data[0] == 123 {
        var prs: seq<Product> := [];
        var i := 0;
        while i < |keys|
          invariant 0 <= i <= |keys|
          invariant prs == ValuesIn(asMap, keys[..i])
        {
          assert keys[..i + 1][..i] == keys[..i];
          prs := prs + [asMap[keys[i]]];
          i := i + 1;
        }
        assert keys[..i] == keys;
        Items := prs;
      }
      err := None;
    }
  }

  /** An object yields each of its values once: as many products as keys,
      and every value among them. */
  lemma ValuesInAll<V>(m: map<string, V>, keys: seq<string>)
    requires Distinct(keys) && forall k :: k in m <==> k in keys
    ensures |ValuesIn(m, keys)| == |m|
    ensures forall k :: k in m ==> m[k] in ValuesIn(m, keys)
  {
    DistinctCard(keys);
    assert m.Keys == set k | k in keys;
    forall k | k in m ensures m[k] in ValuesIn(m, keys) {
      var i :| 0 <= i < |keys| && keys[i] == k;
      assert ValuesIn(m, keys)[i] == m[k];
    }
  }

  /** A sequence without repetitions has as many elements as its set. */
  lemma {:induction false} DistinctCard<T>(s: seq<T>)
    requires Distinct(s)
    ensures |set x | x in s| == |s|
  {
    if s != [] {
      var init := s[..|s| - 1];
      var last := s[|s| - 1];
      assert Distinct(init);
      DistinctCard(init);
      assert (set x | x in s) == (set x | x in init) + {last};
      assert last !in init;
    }
  }

  // ---------------------------------------------------------------------
  // Conversion: the loop of `queryMenu`

  /** The versions of one product: the size in its own name, then the size
      of each size variant, all at the product's price. */
  function VersionsOf(prd: Product, price: real): (vs: seq<D.Zusatz>)
    ensures |vs| == 1 + |prd.Sizes|
    ensures vs[0] == D.Zusatz(SeparateProductNameAndSize(prd.Name).1, "", price)
    ensures forall i :: 0 <= i < |prd.Sizes| ==> vs[i + 1] == D.Zusatz(SeparateProductNameAndSize(prd.Sizes[i].Name).1, "", price)
  {
    [D.Zusatz(SeparateProductNameAndSize(prd.Name).1, "", price)] + SizeVersions(prd.Sizes, price)
  }

  /** One version per size variant, named by the size in the variant's
      name, at the parent's price. */
  function SizeVersions(sizes: seq<Product>, price: real): (vs: seq<D.Zusatz>)
    ensures |vs| == |sizes|
    ensures forall i :: 0 <= i < |sizes| ==> vs[i] == D.Zusatz(SeparateProductNameAndSize(sizes[i].Name).1, "", price)
  {
    if sizes == [] then []
    else SizeVersions(sizes[..|sizes| - 1], price) + [D.Zusatz(SeparateProductNameAndSize(sizes[|sizes| - 1].Name).1, "", price)]
  }

  /** The extras of one menu of options, at the product's price. */
  function OptionExtras(opts: seq<Product>, price: real): (es: seq<D.Zusatz>)
    ensures |es| == |opts|
    ensures forall i :: 0 <= i < |opts| ==> es[i] == D.Zusatz(OptionName(opts[i].Name), "", price)
  {
    if opts == [] then []
    else OptionExtras(opts[..|opts| - 1], price) + [D.Zusatz(OptionName(opts[|opts| - 1].Name), "", price)]
  }

  /** The extras of a product: the options of each of its menus, menu by
      menu. */
  function ExtrasOf(menus: seq<ExtrasMenu>, price: real): seq<D.Zusatz>
  {
    if menus == [] then []
    else ExtrasOf(menus[..|menus| - 1], price) + OptionExtras(menus[|menus| - 1].Options, price)
  }

  /** The article for one product. */
  function ArtikelOf(prd: Product, price: real): D.Artikel
  {
    D.Artikel("", SeparateProductNameAndSize(prd.Name).0, "", VersionsOf(prd, price), ExtrasOf(prd.Extras, price))
  }

  /** The products of the categories, category by category. */
  function AllProducts(cats: seq<Category>): seq<Product>
  {
    if cats == [] then [] else AllProducts(cats[..|cats| - 1]) + cats[|cats| - 1].Products
  }

  /** The price of every product parses. */
  predicate PricesParse(prds: seq<Product>, parse: string -> Option<real>)
  {
    forall i :: 0 <= i < |prds| ==> parse(prds[i].Price).Some?
  }

  /** `arts` holds the article of each product of `prds`, all prices
      parsing. */
  predicate Converted(prds: seq<Product>, parse: string -> Option<real>, arts: seq<D.Artikel>)
  {
    |arts| == |prds| &&
    forall i :: 0 <= i < |prds| ==> parse(prds[i].Price).Some? && arts[i] == ArtikelOf(prds[i], parse(prds[i].Price).value)
  }

  /** The article of each product, at its parsed price. */
  function Articles(prds: seq<Product>, parse: string -> Option<real>): (arts: seq<D.Artikel>)
    requires PricesParse(prds, parse)
    ensures Converted(prds, parse, arts)
  {
    seq(|prds|, (i: int) requires 0 <= i < |prds| => ArtikelOf(prds[i], parse(prds[i].Price).value))
  }

  /** There is only one way to convert a list of products. */
  lemma ConvertedUnique(prds: seq<Product>, parse: string -> Option<real>, a: seq<D.Artikel>, b: seq<D.Artikel>)
    requires Converted(prds, parse, a) && Converted(prds, parse, b)
    ensures a == b
  {
  }

  const PriceError := "Couldn't convert price on Size"

  /** What `queryMenu` returns for the decoded answer `m`: the restaurant's
      name and phone number and its articles, or the fatal price error. */
  function Menu(m: Rd, parse: string -> Option<real>): (r: Result<D.LieferDienst>)
    ensures r.Ok? <==> PricesParse(AllProducts(m.Categories), parse)
    ensures r.Err? ==> r.msg == PriceError
    ensures r.Ok? ==> r.value.Name == m.Name && r.value.Telefonnummer == m.Phone && r.value.ID == ""
    ensures r.Ok? ==> Converted(AllProducts(m.Categories), parse, r.value.Artikel)
  {
    if PricesParse(AllProducts(m.Categories), parse) then
      Ok(D.LieferDienst(m.Name, "", m.Phone, Articles(AllProducts(m.Categories), parse)))
    else Err(PriceError)
  }

  /** The catalog entry has one article per product, in order, named after
      the product without its size, whose first version is the size in the
      product's name, followed by one version per size variant, and whose
      versions and extras all carry the product's own price. */
  lemma MenuArticles(m: Rd, parse: string -> Option<real>)
    requires Menu(m, parse).Ok?
    ensures var prds := AllProducts(m.Categories);
      var arts := Menu(m, parse).value.Artikel;
      |arts| == |prds| &&
      forall i :: 0 <= i < |prds| ==>
        arts[i].Name == SeparateProductNameAndSize(prds[i].Name).0 &&
        |arts[i].Versionen| == 1 + |prds[i].Sizes| &&
        arts[i].Versionen[0].Name == SeparateProductNameAndSize(prds[i].Name).1 &&
        (forall k :: 1 <= k < |arts[i].Versionen| ==>
          arts[i].Versionen[k].Name == SeparateProductNameAndSize(prds[i].Sizes[k - 1].Name).1) &&
        (forall z :: z in arts[i].Versionen + arts[i].Extras ==> parse(prds[i].Price) == Some(z.Preis))
  {
    var prds := AllProducts(m.Categories);
    var arts := Menu(m, parse).value.Artikel;
    forall i | 0 <= i < |prds|
      ensures forall z :: z in arts[i].Versionen + arts[i].Extras ==> parse(prds[i].Price) == Some(z.Preis)
    {
      var x := parse(prds[i].Price).value;
      ExtrasPrice(prds[i].Extras, x);
      var a := arts[i];
      assert a == ArtikelOf(prds[i], x);
      forall z | z in a.Versionen + a.Extras ensures z.Preis == x {
        if z in a.Versionen {
          var k :| 0 <= k < |a.Versionen| && a.Versionen[k] == z;
          if k > 0 {
            assert z == a.Versionen[(k - 1) + 1];
          }
        }
      }
    }
  }

  /** Every extra of a product carries the given price. */
  lemma {:induction false} ExtrasPrice(menus: seq<ExtrasMenu>, price: real)
    ensures forall z :: z in ExtrasOf(menus, price) ==> z.Preis == price
  {
    if menus != [] {
      ExtrasPrice(menus[..|menus| - 1], price);
    }
  }

  /** The extras of a product are its options, menu by menu, each named
      without "mit ": the `k`-th option of menu `j` comes after all options
      of the menus before it. */
  lemma {:induction false} ExtrasOrder(menus: seq<ExtrasMenu>, price: real, j: nat, k: nat)
    requires j < |menus| && k < |menus[j].Options|
    ensures |ExtrasOf(menus[..j], price)| + k < |ExtrasOf(menus, price)|
    ensures ExtrasOf(menus, price)[|ExtrasOf(menus[..j], price)| + k] == D.Zusatz(OptionName(menus[j].Options[k].Name), "", price)
  {
    var last := |menus| - 1;
    assert menus[..last][..j] == menus[..j];
    if j < last {
      ExtrasOrder(menus[..last], price, j, k);
    } else {
      assert menus[..j] == menus[..last];
    }
  }

  /** The products come category by category: product `k` of category `j`
      comes after all products of the categories before it. */
  lemma {:induction false} ProductOrder(cats: seq<Category>, j: nat, k: nat)
    requires j < |cats| && k < |cats[j].Products|
    ensures |AllProducts(cats[..j])| + k < |AllProducts(cats)|
    ensures AllProducts(cats)[|AllProducts(cats[..j])| + k] == cats[j].Products[k]
  {
    var last := |cats| - 1;
    assert cats[..last][..j] == cats[..j];
    if j < last {
      ProductOrder(cats[..last], j, k);
    } else {
      assert cats[..j] == cats[..last];
    }
  }

  /** The conversion loop of `queryMenu` on the decoded answer `m`. Every
      price is parsed by `parse`; a price that does not parse ends the
      program (`log.Fatal`), which the model returns as an error. */
  method QueryMenu(m: Rd, parse: string -> Option<real>) returns (r: Result<D.LieferDienst>)
    ensures r == Menu(m, parse)
  {
    var arts: seq<D.Artikel> := [];
    var ci := 0;
    while ci < |m.Categories|
      invariant 0 <= ci <= |m.Categories|
      invariant Converted(AllProducts(m.Categories[..ci]), parse, arts)
    {
      var bad;
      bad, arts := ConvertCategory(AllProducts(m.Categories[..ci]), m.Categories[ci], arts, parse);
      if bad.Some? {
        PriceFails(m.Categories, ci, bad.value, parse);
        return Err(PriceError);
      }
      assert m.Categories[..ci + 1][..ci] == m.Categories[..ci];
      ci := ci + 1;
    }
    assert m.Categories[..ci] == m.Categories;
    ConvertedUnique(AllProducts(m.Categories), parse, arts, Articles(AllProducts(m.Categories), parse));
    r := Ok(D.LieferDienst(m.Name, "", m.Phone, arts));
  }

  /** The inner loop over the products of one category, appending to the
      articles `arts` of the products `done` before it; returns the index
      of the first product whose price does not parse, if any. */
  method ConvertCategory(done: seq<Product>, cat: Category, arts: seq<D.Artikel>, parse: string -> Option<real>)
      returns (bad: Option<nat>, r: seq<D.Artikel>)
    requires Converted(done, parse, arts)
    ensures bad.Some? ==> bad.value < |cat.Products| && parse(cat.Products[bad.value].Price).None?
    ensures bad.None? ==> Converted(done + cat.Products, parse, r)
  {
    r := arts;
    ghost var all := done + cat.Products;
    var pi := 0;
    while pi < |cat.Products|
      invariant 0 <= pi <= |cat.Products|
      invariant |r| == |done| + pi
      invariant forall i :: 0 <= i < |r| ==> parse(all[i].Price).Some? && r[i] == ArtikelOf(all[i], parse(all[i].Price).value)
    {
      var prd := cat.Products[pi];
      var price := parse(prd.Price);
      if price.None? {
        return Some(pi), r;
      }
      assert all[|done| + pi] == prd;
      var art := ConvertProduct(prd, price.value);
      r := r + [art];
      pi := pi + 1;
    }
    bad := None;
  }

  /** A product whose price does not parse makes the whole menu fail. */
  lemma PriceFails(cats: seq<Category>, j: nat, k: nat, parse: string -> Option<real>)
    requires j < |cats| && k < |cats[j].Products| && parse(cats[j].Products[k].Price).None?
    ensures !PricesParse(AllProducts(cats), parse)
  {
    ProductOrder(cats, j, k);
  }

  /** One product of the loop: the name and size split, the size variants
      and the extra options, all at the product's price. */
  method ConvertProduct(prd: Product, price: real) returns (art: D.Artikel)
    ensures art == ArtikelOf(prd, price)
  {
    var (prdName, version) := SeparateProductNameAndSize(prd.Name);
    var versionen := AppendSizes([D.Zusatz(version, "", price)], prd.Sizes, price);
    var extras := AppendExtras(prd.Extras, price);
    art := D.Artikel("", prdName, "", versionen, extras);
  }

  /** The versions of the size variants, appended to `acc`. */
  method AppendSizes(acc: seq<D.Zusatz>, sizes: seq<Product>, price: real) returns (r: seq<D.Zusatz>)
    ensures r == acc + SizeVersions(sizes, price)
  {
    r := acc;
    var i := 0;
    while i < |sizes|
      invariant 0 <= i <= |sizes|
      invariant r == acc + SizeVersions(sizes[..i], price)
    {
      assert sizes[..i + 1][..i] == sizes[..i];
      r := r + [D.Zusatz(SeparateProductNameAndSize(sizes[i].Name).1, "", price)];
      i := i + 1;
    }
    assert sizes[..i] == sizes;
  }

  /** The extras of all menus of options, menu by menu. */
  method AppendExtras(menus: seq<ExtrasMenu>, price: real) returns (r: seq<D.Zusatz>)
    ensures r == ExtrasOf(menus, price)
  {
    r := [];
    var j := 0;
    while j < |menus|
      invariant 0 <= j <= |menus|
      invariant r == ExtrasOf(menus[..j], price)
    {
      assert menus[..j + 1][..j] == menus[..j];
      r := AppendOptions(r, menus[j].Options, price);
      j := j + 1;
    }
    assert menus[..j] == menus;
  }

  /** The options of one menu of extras, appended to `acc`. */
  method AppendOptions(acc: seq<D.Zusatz>, opts: seq<Product>, price: real) returns (r: seq<D.Zusatz>)
    ensures r == acc + OptionExtras(opts, price)
  {
    r := acc;
    var k := 0;
    while k < |opts|
      invariant 0 <= k <= |opts|
      invariant r == acc + OptionExtras(opts[..k], price)
    {
      assert opts[..k + 1][..k] == opts[..k];
      r := r + [D.Zusatz(OptionName(opts[k].Name), "", price)];
      k := k + 1;
    }
    assert opts[..k] == opts;
  }

  // ---------------------------------------------------------------------
  // Restaurant list: `printRestaurants`

  datatype Restaurant = Restaurant(ID: string, Name: string, Bn: string, Strasse: string, Stadt: string)

  /** Go's `<` on strings: byte-wise lexicographic order of the UTF-8
      encodings, which agrees with the order of the code points. */
  predicate NameLess(a: string, b: string)
  {
    if b == [] then false
    else if a == [] then true
    else if a[0] != b[0] then a[0] < b[0]
    else NameLess(a[1..], b[1..])
  }

  lemma NameLessIrreflexive(a: string)
    ensures !NameLess(a, a)
  {
  }

  /** The order is strict and total. */
  lemma {:induction false} NameLessTotal(a: string, b: string)
    ensures a != b ==> NameLess(a, b) != NameLess(b, a)
    ensures a == b ==> !NameLess(a, b)
  {
    if a != [] && b != [] && a[0] == b[0] {
      NameLessTotal(a[1..], b[1..]);
      if a[1..] == b[1..] {
        assert a == [a[0]] + a[1..] && b == [b[0]] + b[1..];
      }
    } else if a == b {
      NameLessIrreflexive(a);
    }
  }

  lemma {:induction false} NameLessTransitive(a: string, b: string, c: string)
    requires NameLess(a, b) && NameLess(b, c)
    ensures NameLess(a, c)
  {
    if a != [] && a[0] == b[0] && b[0] == c[0] {
      NameLessTransitive(a[1..], b[1..], c[1..]);
    }
  }

  /** Not being smaller is transitive: what a sorted list needs. */
  lemma NotLessTransitive(a: string, b: string, c: string)
    requires !NameLess(b, a) && !NameLess(c, b)
    ensures !NameLess(c, a)
  {
    if NameLess(c, a) {
      NameLessTotal(c, b);
      NameLessTotal(b, a);
      if b != c && b != a {
        NameLessTransitive(b, c, a);
      }
    }
  }

  /** Ascending by name: no restaurant has a smaller name than one before it. */
  predicate SortedByName(rs: seq<Restaurant>)
  {
    forall i, j :: 0 <= i < j < |rs| ==> !NameLess(rs[j].Name, rs[i].Name)
  }

  /** `By(name).Sort(restaurants)`: sorts the list in place by name, using
      `Swap` only. */
  method SortByName(a: array<Restaurant>)
    modifies a
    ensures SortedByName(a[..])
    ensures multiset(a[..]) == multiset(old(a[..]))
  {
    var i := 0;
    while i < a.Length
      invariant 0 <= i <= a.Length
      invariant SortedByName(a[..i])
      invariant multiset(a[..]) == multiset(old(a[..]))
    {
      Insert(a, i);
      i := i + 1;
    }
    assert a[..i] == a[..];
  }

  /** While `a[i]` moves down to position `j`: all pairs not involving `j`
      are ordered, and nothing after `j` is smaller than `a[j]`. */
  predicate Inserting(s: seq<Restaurant>, i: nat, j: nat)
    requires j <= i < |s|
  {
    (forall k, l :: 0 <= k < l <= i && k != j && l != j ==> !NameLess(s[l].Name, s[k].Name)) &&
    (forall l :: j < l <= i ==> !NameLess(s[l].Name, s[j].Name))
  }

  /** Swapping `a[j]` with a larger `a[j - 1]` moves the insertion one step
      down. */
  lemma InsertingStep(s: seq<Restaurant>, i: nat, j: nat)
    requires 0 < j <= i < |s| && Inserting(s, i, j) && NameLess(s[j].Name, s[j - 1].Name)
    ensures Inserting(s[j - 1 := s[j]][j := s[j - 1]], i, j - 1)
  {
    NameLessTotal(s[j].Name, s[j - 1].Name);
  }

  /** Once `a[j]` is not smaller than `a[j - 1]`, the prefix up to `i` is
      sorted. */
  lemma InsertingDone(s: seq<Restaurant>, i: nat, j: nat)
    requires j <= i < |s| && Inserting(s, i, j) && (j > 0 ==> !NameLess(s[j].Name, s[j - 1].Name))
    ensures SortedByName(s[..i + 1])
  {
    forall k, l | 0 <= k < l <= i ensures !NameLess(s[l].Name, s[k].Name) {
      if l == j && k < j - 1 {
        NotLessTransitive(s[k].Name, s[j - 1].Name, s[j].Name);
      }
    }
  }

  /** `restaurantSorter.Swap`. */
  method Swap(a: array<Restaurant>, i: nat, j: nat)
    requires i < a.Length && j < a.Length
    modifies a
    ensures a[..] == old(a[..])[i := old(a[j])][j := old(a[i])]
    ensures multiset(a[..]) == multiset(old(a[..]))
  {
    a[i], a[j] := a[j], a[i];
  }

  /** Moves `a[i]` down into the sorted prefix `a[..i]`. */
  method Insert(a: array<Restaurant>, i: nat)
    requires i < a.Length && SortedByName(a[..i])
    modifies a
    ensures SortedByName(a[..i + 1])
    ensures multiset(a[..]) == multiset(old(a[..]))
  {
    var j := i;
    assert Inserting(a[..], i, j);
    while j > 0 && NameLess(a[j].Name, a[j - 1].Name)
      invariant 0 <= j <= i
      invariant multiset(a[..]) == multiset(old(a[..]))
      invariant Inserting(a[..], i, j)
    {
      InsertingStep(a[..], i, j);
      Swap(a, j - 1, j);
      j := j - 1;
    }
    InsertingDone(a[..], i, j);
  }

  // ---------------------------------------------------------------------
  // Request parameters: `sendauthorizedHTTPRequest`

  /** The fixed parameters of every request. */
  function BaseParams(): map<string, seq<string>>
  {
    map["language" := ["de"], "version" := ["5.7"], "systemVersion" := ["24"], "appVersion" := ["4.15.3.2"]]
  }

  const Salt := "4ndro1d"

  /** The name of the `n`-th request parameter. */
  function VarName(n: nat): string
  {
    "var" + NatToString(n)
  }

  lemma VarNameInjective(a: nat, b: nat)
    requires VarName(a) == VarName(b)
    ensures a == b
  {
    assert VarName(a)[3..] == NatToString(a);
    assert VarName(b)[3..] == NatToString(b);
    NatToStringInjective(a, b);
  }

  lemma VarNameNotBase(n: nat)
    ensures VarName(n) !in BaseParams()
  {
    assert VarName(n)[1] == 'a';
    assert VarName(n)[..3] == "var";
  }

  /** `url.Values.Add`: appends a value to the key's list. */
  function Add(parm: map<string, seq<string>>, key: string, value: string): (r: map<string, seq<string>>)
  {
    if key in parm then parm[key := parm[key] + [value]] else parm[key := [value]]
  }

  /** The names `var1` … `varN`. */
  function VarNames(n: nat): set<string>
  {
    if n == 0 then {} else VarNames(n - 1) + {VarName(n)}
  }

  /** `VarName(m)` is among the first `n` names exactly when `1 <= m <= n`. */
  lemma {:induction false} VarNamesHold(n: nat, m: nat)
    ensures VarName(m) in VarNames(n) <==> 1 <= m <= n
  {
    if n > 0 {
      VarNamesHold(n - 1, m);
      if VarName(m) == VarName(n) {
        VarNameInjective(m, n);
      }
    }
  }

  /** The form after the first `|ps|` parameters: the fixed ones and
      `var1` … `varN` holding `ps` in order. */
  predicate ParamsAt(parm: map<string, seq<string>>, ps: seq<string>)
  {
    parm.Keys == BaseParams().Keys + VarNames(|ps|) &&
    (forall k :: k in BaseParams() ==> k in parm && parm[k] == BaseParams()[k]) &&
    (forall n :: 1 <= n <= |ps| ==> VarName(n) in parm && parm[VarName(n)] == [ps[n - 1]])
  }

  /** Adding the next parameter under the next name. */
  lemma AddVar(parm: map<string, seq<string>>, ps: seq<string>, p: string)
    requires ParamsAt(parm, ps)
    ensures ParamsAt(Add(parm, VarName(|ps| + 1), p), ps + [p])
  {
    VarNameNotBase(|ps| + 1);
    VarNamesHold(|ps|, |ps| + 1);
    var vn := VarName(|ps| + 1);
    var r := Add(parm, vn, p);
    var qs := ps + [p];
    assert vn !in parm;
    assert r == parm[vn := [p]];
    assert r.Keys == BaseParams().Keys + VarNames(|qs|) by {
      assert VarNames(|qs|) == VarNames(|ps|) + {vn};
    }
    forall n | 1 <= n <= |qs| ensures VarName(n) in r && r[VarName(n)] == [qs[n - 1]] {
      if n <= |ps| {
        assert qs[n - 1] == ps[n - 1];
      }
    }
  }

  /** What the finished form holds. */
  predicate FinalParams(parm: map<string, seq<string>>, ps: seq<string>, hash: string)
  {
    parm.Keys == BaseParams().Keys + VarNames(|ps|) + {VarName(0)} &&
    (forall k :: k in BaseParams() ==> k in parm && parm[k] == BaseParams()[k]) &&
    (forall i :: 0 <= i < |ps| ==> VarName(i + 1) in parm && parm[VarName(i + 1)] == [ps[i]]) &&
    VarName(0) in parm && parm[VarName(0)] == [hash]
  }

  /** Adding the hash under `var0`, a name no other parameter has. */
  lemma AddHash(parm: map<string, seq<string>>, ps: seq<string>, hash: string)
    requires ParamsAt(parm, ps)
    ensures FinalParams(Add(parm, VarName(0), hash), ps, hash)
  {
    VarNameNotBase(0);
    VarNamesHold(|ps|, 0);
    forall n | 1 <= n <= |ps| ensures VarName(n) != VarName(0) {
      if VarName(n) == VarName(0) {
        VarNameInjective(n, 0);
      }
    }
    var r := Add(parm, VarName(0), hash);
    forall i | 0 <= i < |ps| ensures r[VarName(i + 1)] == [ps[i]] {
      assert parm[VarName(i + 1)] == [ps[(i + 1) - 1]];
    }
  }

  lemma TakeNext<T>(s: seq<T>, i: nat)
    requires i < |s|
    ensures s[..i + 1] == s[..i] + [s[i]] && s[..i + 1][..i] == s[..i]
  {
  }

  /** The form of a request with the given parameters: the fixed ones,
      `var1` … `varN` holding the parameters in order, and `var0` holding
      the hash (`md5`, hex-encoded) of the parameters' concatenation
      followed by the salt. Returns the form and the hashed text. */
  method RequestParams(parameter: seq<string>, md5: string -> string) returns (parm: map<string, seq<string>>, auth: string)
    ensures auth == Concat(parameter) + Salt
    ensures FinalParams(parm, parameter, md5(auth))
  {
    parm := BaseParams();
    auth := "";
    var i := 0;
    while i < |parameter|
      invariant 0 <= i <= |parameter|
      invariant auth == Concat(parameter[..i])
      invariant ParamsAt(parm, parameter[..i])
    {
      AddVar(parm, parameter[..i], parameter[i]);
      TakeNext(parameter, i);
      parm := Add(parm, VarName(i + 1), parameter[i]);
      auth := auth + parameter[i];
      i := i + 1;
    }
    assert parameter[..i] == parameter;
    auth := auth + Salt;
    AddHash(parm, parameter, md5(auth));
    parm := Add(parm, VarName(0), md5(auth));
  }
}

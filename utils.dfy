/** src/utils.py: grouping the market feed by product group, rendering the price list,
    and grouping stored price records for the history chart. */
module Utils {
  import opened Wrappers
  import opened Text
  import opened Models
  import opened Dicts

  // ---------------------------------------------------------------------------
  // The feed

  /** One record of the market feed. Field names follow the feed's JSON keys:
      UrunGrubu, TopMiktar, MaxFiyat, MinFiyat, AvgFiyat (decimal text with a comma),
      GrupAdi, GrupMaxFiyat, GrupMinFiyat, GrupOrtFiyat (integers scaled by 10^4). */
  datatype FeedProduct = FeedProduct(
    productName: string,
    quantity: int,
    maxPriceText: string,
    minPriceText: string,
    avgPriceText: string,
    groupName: string,
    groupMaxScaled: int,
    groupMinScaled: int,
    groupAvgScaled: int)

  /** What the HTTP request yields: a read timeout, or the decoded product list. */
  datatype FetchResult = Timeout | Response(products: seq<FeedProduct>)

  /** A product as stored in its group. Its prices are the feed's decimal text with the
      comma turned into a point, which is what `float(...)` is then given. */
  datatype ProductEntry = ProductEntry(
    name: string, quantity: int, maxPrice: string, minPrice: string, avgPrice: string)

  datatype Group = Group(
    products: seq<ProductEntry>,
    groupMaxPrice: Price,
    groupMinPrice: Price,
    groupAvgPrice: Price,
    groupQuantity: int)

  type Groups = Dict<Group>

  /** `text.replace(',', '.')`. */
  function PointDecimal(text: string): (r: string)
    ensures ',' !in r && |r| == |text|
  {
    ReplaceCharRemoves(text, ',', '.');
    ReplaceChar(text, ',', '.')
  }

  function Entry(p: FeedProduct): ProductEntry {
    ProductEntry(p.productName, p.quantity,
      PointDecimal(p.maxPriceText), PointDecimal(p.minPriceText), PointDecimal(p.avgPriceText))
  }

  /** The group created when its name is first seen: that product's group prices, no
      products yet and quantity 0. */
  function NewGroup(p: FeedProduct): Group {
    Group([], Price(p.groupMaxScaled), Price(p.groupMinScaled), Price(p.groupAvgScaled), 0)
  }

  /** One iteration of the loop over the feed. */
  function AddProduct(groups: Groups, p: FeedProduct): (r: Groups)
    ensures r.keys == if p.groupName in groups.vals then groups.keys else groups.keys + [p.groupName]
    ensures r.vals.Keys == groups.vals.Keys + {p.groupName}
    ensures forall k :: k in groups.vals && k != p.groupName ==> r.vals[k] == groups.vals[k]
    ensures var old_ := if p.groupName in groups.vals then groups.vals[p.groupName] else NewGroup(p);
      r.vals[p.groupName] == old_.(products := old_.products + [Entry(p)],
                                   groupQuantity := old_.groupQuantity + p.quantity)
  {
    var name := p.groupName;
    var g1 := if name in groups.vals then groups else Put(groups, name, NewGroup(p));
    var g := g1.vals[name];
    Put(g1, name, g.(products := g.products + [Entry(p)], groupQuantity := g.groupQuantity + p.quantity))
  }

  lemma AddProductValid(groups: Groups, p: FeedProduct)
    requires Valid(groups)
    ensures Valid(AddProduct(groups, p))
  {
    var name := p.groupName;
    if name !in groups.vals {
      PutValid(groups, name, NewGroup(p));
    }
    var g1 := if name in groups.vals then groups else Put(groups, name, NewGroup(p));
    var g := g1.vals[name];
    PutValid(g1, name, g.(products := g.products + [Entry(p)], groupQuantity := g.groupQuantity + p.quantity));
  }

  /** The mapping the loop has built after the given products. */
  function Grouping(ps: seq<FeedProduct>): Groups
    decreases |ps|
  {
    if ps == [] then Empty() else AddProduct(Grouping(ps[..|ps| - 1]), ps[|ps| - 1])
  }

  lemma {:induction false} GroupingValid(ps: seq<FeedProduct>)
    ensures Valid(Grouping(ps))
    decreases |ps|
  {
    if ps != [] {
      GroupingValid(ps[..|ps| - 1]);
      AddProductValid(Grouping(ps[..|ps| - 1]), ps[|ps| - 1]);
    }
  }

  lemma GroupingSnoc(ps: seq<FeedProduct>, i: nat)
    requires i < |ps|
    ensures Grouping(ps[..i + 1]) == AddProduct(Grouping(ps[..i]), ps[i])
  {
    assert ps[..i + 1][..i] == ps[..i];
  }

  /** The body of the loop of `Helper.fetch_prices`: create the group when its name is
      new, then append the product and add its quantity. */
  method AddToGroup(groups: Groups, product: FeedProduct) returns (r: Groups)
    ensures r == AddProduct(groups, product)
  {
    r := groups;
    var name := product.groupName;
    if name !in r.vals {
      r := Put(r, name, NewGroup(product));
    }
    var g := r.vals[name];
    r := Put(r, name, g.(products := g.products + [Entry(product)],
                         groupQuantity := g.groupQuantity + product.quantity));
  }

  /** `Helper.fetch_prices`: `None` stands for the TimeoutError it lets escape. */
  method FetchPrices(response: FetchResult) returns (r: Option<Groups>)
    ensures r.None? <==> response.Timeout?
    ensures response.Response? ==> r == Some(Grouping(response.products))
  {
    if response.Timeout? {
      return None;
    }
    var products := response.products;
    var groups: Groups := Dict([], map[]);
    var i := 0;
    while i < |products|
      invariant 0 <= i <= |products|
      invariant groups == Grouping(products[..i])
    {
      GroupingSnoc(products, i);
      groups := AddToGroup(groups, products[i]);
      i := i + 1;
    }
    assert products[..i] == products;
    return Some(groups);
  }

  // Reference definitions the grouping is proved against.

  /** The group names of the feed in first-seen order. */
  function FirstSeen(names: seq<string>): seq<string>
    decreases |names|
  {
    if names == [] then []
    else
      var front := FirstSeen(names[..|names| - 1]);
      if names[|names| - 1] in front then front else front + [names[|names| - 1]]
  }

  lemma {:induction false} FirstSeenMember(names: seq<string>, x: string)
    ensures x in FirstSeen(names) <==> x in names
    decreases |names|
  {
    if names != [] {
      FirstSeenMember(names[..|names| - 1], x);
      assert names == names[..|names| - 1] + [names[|names| - 1]];
    }
  }

  function GroupNames(ps: seq<FeedProduct>): (r: seq<string>)
    ensures |r| == |ps| && forall i :: 0 <= i < |ps| ==> r[i] == ps[i].groupName
  {
    seq(|ps|, i requires 0 <= i < |ps| => ps[i].groupName)
  }

  lemma GroupNamesSnoc(ps: seq<FeedProduct>)
    requires ps != []
    ensures GroupNames(ps) == GroupNames(ps[..|ps| - 1]) + [ps[|ps| - 1].groupName]
  {
    var a := GroupNames(ps);
    var front := GroupNames(ps[..|ps| - 1]);
    var b := front + [ps[|ps| - 1].groupName];
    forall i | 0 <= i < |a|
      ensures a[i] == b[i]
    {
      if i < |ps| - 1 {
        assert b[i] == front[i];
      }
    }
  }

  /** The entries of the products of group `name`, in feed order. */
  function EntriesOf(ps: seq<FeedProduct>, name: string): seq<ProductEntry>
    decreases |ps|
  {
    if ps == [] then []
    else EntriesOf(ps[..|ps| - 1], name) + (if ps[|ps| - 1].groupName == name then [Entry(ps[|ps| - 1])] else [])
  }

  /** The sum of TopMiktar over the products of group `name`. */
  function QuantityOf(ps: seq<FeedProduct>, name: string): int
    decreases |ps|
  {
    if ps == [] then 0
    else QuantityOf(ps[..|ps| - 1], name) + (if ps[|ps| - 1].groupName == name then ps[|ps| - 1].quantity else 0)
  }

  lemma {:induction false} GroupingKeys(ps: seq<FeedProduct>)
    ensures Grouping(ps).keys == FirstSeen(GroupNames(ps))
    ensures forall name :: name in Grouping(ps).vals <==> name in GroupNames(ps)
    decreases |ps|
  {
    if ps != [] {
      var front := ps[..|ps| - 1];
      var name := ps[|ps| - 1].groupName;
      var names := GroupNames(front);
      GroupingKeys(front);
      GroupNamesSnoc(ps);
      assert GroupNames(ps)[..|ps| - 1] == names;
      FirstSeenMember(names, name);
      var g0 := Grouping(front);
      var g := AddProduct(g0, ps[|ps| - 1]);
      assert Grouping(ps) == g;
      assert name in g0.vals <==> name in FirstSeen(names);
      assert g.vals.Keys == g0.vals.Keys + {name};
      forall n
        ensures n in g.vals <==> n in GroupNames(ps)
      {
        assert n in g.vals <==> n in g0.vals || n == name;
        assert n in GroupNames(ps) <==> n in names || n == name;
      }
    }
  }

  /** The group keys are the distinct group names of the feed, in first-seen order; a
      name is a key exactly when some product carries it. */
  lemma GroupingOrder(ps: seq<FeedProduct>)
    ensures Grouping(ps).keys == FirstSeen(GroupNames(ps))
    ensures forall name :: name in Grouping(ps).vals <==> exists i :: 0 <= i < |ps| && ps[i].groupName == name
  {
    GroupingKeys(ps);
    var names := GroupNames(ps);
    forall name
      ensures name in Grouping(ps).vals <==> exists i :: 0 <= i < |ps| && ps[i].groupName == name
    {
      if name in names {
        var i :| 0 <= i < |names| && names[i] == name;
        assert ps[i].groupName == name;
      } else {
        forall i | 0 <= i < |ps| ensures ps[i].groupName != name {
          assert names[i] == ps[i].groupName;
        }
      }
    }
  }

  /** Group `name` lists exactly the products whose GrupAdi is `name`, in feed order, so
      every product lands in exactly one group. */
  lemma {:induction false} GroupingProducts(ps: seq<FeedProduct>, name: string)
    requires name in Grouping(ps).vals
    ensures Grouping(ps).vals[name].products == EntriesOf(ps, name)
    decreases |ps|
  {
    var front := ps[..|ps| - 1];
    var p := ps[|ps| - 1];
    if name in Grouping(front).vals {
      GroupingProducts(front, name);
    } else {
      GroupingKeys(front);
      EntriesOfAbsent(front, name);
    }
  }

  lemma {:induction false} EntriesOfAbsent(ps: seq<FeedProduct>, name: string)
    requires name !in GroupNames(ps)
    ensures EntriesOf(ps, name) == [] && QuantityOf(ps, name) == 0
    decreases |ps|
  {
    if ps != [] {
      var front := ps[..|ps| - 1];
      GroupNamesSnoc(ps);
      EntriesOfAbsent(front, name);
    }
  }

  /** A group's quantity starts at 0 and is the sum of its products' TopMiktar. */
  lemma {:induction false} GroupingQuantity(ps: seq<FeedProduct>, name: string)
    requires name in Grouping(ps).vals
    ensures Grouping(ps).vals[name].groupQuantity == QuantityOf(ps, name)
    decreases |ps|
  {
    var front := ps[..|ps| - 1];
    if name in Grouping(front).vals {
      GroupingQuantity(front, name);
    } else {
      GroupingKeys(front);
      EntriesOfAbsent(front, name);
    }
  }

  /** A group's min, max and average come from the first product of that group; later
      products of the group never change them. */
  lemma {:induction false} GroupingFirstPrices(ps: seq<FeedProduct>, k: nat)
    requires k < |ps|
    requires forall j :: 0 <= j < k ==> ps[j].groupName != ps[k].groupName
    ensures ps[k].groupName in Grouping(ps).vals
    ensures var g := Grouping(ps).vals[ps[k].groupName];
      && g.groupMaxPrice == Price(ps[k].groupMaxScaled)
      && g.groupMinPrice == Price(ps[k].groupMinScaled)
      && g.groupAvgPrice == Price(ps[k].groupAvgScaled)
    decreases |ps|
  {
    var front := ps[..|ps| - 1];
    var g0 := Grouping(front);
    assert Grouping(ps) == AddProduct(g0, ps[|ps| - 1]);
    if k < |ps| - 1 {
      assert forall j :: 0 <= j < k ==> front[j] == ps[j];
      GroupingFirstPrices(front, k);
      AddProductKeepsPrices(g0, ps[|ps| - 1], ps[k].groupName);
    } else {
      GroupingKeys(front);
      assert ps[k].groupName !in GroupNames(front) by {
        forall j | 0 <= j < |front| ensures GroupNames(front)[j] != ps[k].groupName {
          assert front[j] == ps[j];
        }
      }
    }
  }

  /** Adding a product never changes the prices of a group that already exists. */
  lemma AddProductKeepsPrices(d: Groups, p: FeedProduct, name: string)
    requires name in d.vals
    ensures name in AddProduct(d, p).vals
    ensures var g, g' := d.vals[name], AddProduct(d, p).vals[name];
      g'.groupMaxPrice == g.groupMaxPrice && g'.groupMinPrice == g.groupMinPrice && g'.groupAvgPrice == g.groupAvgPrice
  {
  }

  function ProductCount(g: Group): nat {
    |g.products|
  }

  lemma AddProductCount(d: Groups, p: FeedProduct)
    requires Valid(d)
    ensures SumOver(AddProduct(d, p).keys, AddProduct(d, p).vals, ProductCount) == SumOver(d.keys, d.vals, ProductCount) + 1
  {
    var name := p.groupName;
    if name in d.vals {
      AddExistingCount(d, p);
    } else {
      var d1 := Put(d, name, NewGroup(p));
      AddNewThenExisting(d, p);
      PutValid(d, name, NewGroup(p));
      AddExistingCount(d1, p);
      PutSum(d, name, NewGroup(p), ProductCount);
      assert ProductCount(NewGroup(p)) == 0;
    }
  }

  /** A new group is first created empty, and the product is then added to it. */
  lemma AddNewThenExisting(d: Groups, p: FeedProduct)
    requires p.groupName !in d.vals
    ensures AddProduct(d, p) == AddProduct(Put(d, p.groupName, NewGroup(p)), p)
  {
  }

  /** Adding to a group that already exists raises the total by one. */
  lemma AddExistingCount(d: Groups, p: FeedProduct)
    requires Valid(d) && p.groupName in d.vals
    ensures SumOver(AddProduct(d, p).keys, AddProduct(d, p).vals, ProductCount) == SumOver(d.keys, d.vals, ProductCount) + 1
  {
    var name := p.groupName;
    var g := d.vals[name];
    var g2 := g.(products := g.products + [Entry(p)], groupQuantity := g.groupQuantity + p.quantity);
    assert AddProduct(d, p) == Put(d, name, g2);
    assert ProductCount(g2) == ProductCount(g) + 1;
    PutSum(d, name, g2, ProductCount);
  }

  /** The groups hold as many products in all as the feed has. */
  lemma {:induction false} GroupingTotal(ps: seq<FeedProduct>)
    ensures SumOver(Grouping(ps).keys, Grouping(ps).vals, ProductCount) == |ps|
    decreases |ps|
  {
    if ps != [] {
      GroupingTotal(ps[..|ps| - 1]);
      GroupingValid(ps[..|ps| - 1]);
      AddProductCount(Grouping(ps[..|ps| - 1]), ps[|ps| - 1]);
    }
  }

  /** The mapping is empty exactly when the feed list is. */
  lemma GroupingEmpty(ps: seq<FeedProduct>)
    ensures Grouping(ps).keys == [] <==> ps == []
  {
    GroupingKeys(ps);
    if ps != [] {
      assert ps[0].groupName in GroupNames(ps);
    }
  }

  // ---------------------------------------------------------------------------
  // The price list text

  const Pin: string := "\U{1F4CC}"

  /** `f"{x:.2f}".replace(".", ",")`, where `fmt` stands for the float formatting. */
  function CommaDecimal(fmt: Price -> string, x: Price): string {
    ReplaceChar(fmt(x), '.', ',')
  }

  /** `f"{q:,}".replace(",", ".")`. */
  function FormatQuantity(q: int): string {
    ReplaceChar(FormatWithCommas(q), ',', '.')
  }

  function Header(name: string): string {
    Pin + "  <u><b>" + name + "</b></u>  " + Pin
  }

  function Labelled(caption: string, value: string, unit: string): string {
    "<b>" + caption + ":</b>   " + value + " " + unit
  }

  /** One group's block: header, four labelled lines, then the blank pair. */
  function Block(name: string, g: Group, fmt: Price -> string): string {
    Header(name) + "\n" +
    Labelled("En az", CommaDecimal(fmt, g.groupMinPrice), "TL") + "\n" +
    Labelled("En fazla", CommaDecimal(fmt, g.groupMaxPrice), "TL") + "\n" +
    Labelled("Ortalama", CommaDecimal(fmt, g.groupAvgPrice), "TL") + "\n" +
    Labelled("Miktar", FormatQuantity(g.groupQuantity), "KG") + "\n" +
    "\n\n"
  }

  lemma BlockAppend(before: string, name: string, g: Group, fmt: Price -> string)
    ensures before + Header(name) + "\n"
      + Labelled("En az", CommaDecimal(fmt, g.groupMinPrice), "TL") + "\n"
      + Labelled("En fazla", CommaDecimal(fmt, g.groupMaxPrice), "TL") + "\n"
      + Labelled("Ortalama", CommaDecimal(fmt, g.groupAvgPrice), "TL") + "\n"
      + Labelled("Miktar", FormatQuantity(g.groupQuantity), "KG") + "\n"
      + "\n\n"
      == before + Block(name, g, fmt)
  {
  }

  /** The text the loop has built after the given keys. */
  function RenderKeys(keys: seq<string>, vals: map<string, Group>, fmt: Price -> string): string
    decreases |keys|
  {
    if keys == [] then ""
    else RenderKeys(keys[..|keys| - 1], vals, fmt) + BlockOf(keys[|keys| - 1], vals, fmt)
  }

  /** The block of key `k`; a key without a group (which a dict cannot have) renders as "". */
  function BlockOf(k: string, vals: map<string, Group>, fmt: Price -> string): string {
    if k in vals then Block(k, vals[k], fmt) else ""
  }

  lemma RenderKeysSnoc(keys: seq<string>, vals: map<string, Group>, fmt: Price -> string, i: nat)
    requires i < |keys| && keys[i] in vals
    ensures RenderKeys(keys[..i + 1], vals, fmt) == RenderKeys(keys[..i], vals, fmt) + Block(keys[i], vals[keys[i]], fmt)
  {
    assert keys[..i + 1][..i] == keys[..i];
  }

  function PriceListText(groups: Groups, fmt: Price -> string): string {
    RenderKeys(groups.keys, groups.vals, fmt)
  }

  /** The body of the loop of `Helper.generate_price_list_text`: the six appends of one
      group's lines. */
  method AppendBlock(message: string, name: string, group: Group, fmt: Price -> string) returns (r: string)
    ensures r == message + Block(name, group, fmt)
  {
    var minPrice := CommaDecimal(fmt, group.groupMinPrice);
    var maxPrice := CommaDecimal(fmt, group.groupMaxPrice);
    var avgPrice := CommaDecimal(fmt, group.groupAvgPrice);
    var quantity := FormatQuantity(group.groupQuantity);
    r := message + Header(name) + "\n";
    r := r + Labelled("En az", minPrice, "TL") + "\n";
    r := r + Labelled("En fazla", maxPrice, "TL") + "\n";
    r := r + Labelled("Ortalama", avgPrice, "TL") + "\n";
    r := r + Labelled("Miktar", quantity, "KG") + "\n";
    r := r + "\n\n";
    BlockAppend(message, name, group, fmt);
  }

  /** One iteration of that loop: the text grows by the block of the next key. */
  method AppendKeyBlock(keys: seq<string>, vals: map<string, Group>, fmt: Price -> string, i: nat, message: string)
    returns (r: string)
    requires i < |keys| && keys[i] in vals
    requires message == RenderKeys(keys[..i], vals, fmt)
    ensures r == RenderKeys(keys[..i + 1], vals, fmt)
  {
    RenderKeysSnoc(keys, vals, fmt, i);
    r := AppendBlock(message, keys[i], vals[keys[i]], fmt);
  }

  /** `Helper.generate_price_list_text`. */
  method GeneratePriceListText(groups: Groups, fmt: Price -> string) returns (message: string)
    requires Valid(groups)
    ensures message == PriceListText(groups, fmt)
  {
    message := "";
    var i := 0;
    while i < |groups.keys|
      invariant 0 <= i <= |groups.keys|
      invariant message == RenderKeys(groups.keys[..i], groups.vals, fmt)
    {
      message := AppendKeyBlock(groups.keys, groups.vals, fmt, i, message);
      i := i + 1;
    }
    RenderAllKeys(groups, fmt);
  }

  lemma RenderAllKeys(groups: Groups, fmt: Price -> string)
    ensures RenderKeys(groups.keys[..|groups.keys|], groups.vals, fmt) == PriceListText(groups, fmt)
  {
    assert groups.keys[..|groups.keys|] == groups.keys;
  }

  /** An empty mapping renders as "". */
  lemma PriceListEmpty(groups: Groups, fmt: Price -> string)
    requires Valid(groups) && groups.vals == map[]
    ensures PriceListText(groups, fmt) == ""
  {
  }

  /** The quantity text is the sign, then the digits grouped in threes from the right
      with '.' between groups; dropping the points gives `str(q)` back. */
  lemma FormatQuantityShape(q: int)
    ensures var digits := NatToString(if q < 0 then -q else q);
      FormatQuantity(q) == (if q < 0 then "-" else "") + GroupThousands(digits, '.')
    ensures ParseInt(RemoveChar(FormatQuantity(q), '.')) == Some(q)
  {
    var digits := NatToString(if q < 0 then -q else q);
    var sign := if q < 0 then "-" else "";
    assert FormatWithCommas(q) == sign + GroupThousands(digits, ',');
    GroupThousandsReplace(digits, ',', '.');
    ReplaceCharAppend(sign, GroupThousands(digits, ','), ',', '.');
    assert ReplaceChar(sign, ',', '.') == sign;
    assert FormatQuantity(q) == sign + GroupThousands(digits, '.');
    GroupThousandsUngroup(digits, '.');
    RemoveCharAppend(sign, GroupThousands(digits, '.'), '.');
    assert RemoveChar(sign, '.') == sign;
    assert RemoveChar(FormatQuantity(q), '.') == sign + digits;
    assert IntToString(q) == sign + digits;
    IntToStringRoundTrip(q);
  }

  /** For a non-negative quantity, the points stand exactly every fourth place from the
      right: "1.234.567". */
  lemma FormatQuantityPoints(q: nat)
    ensures var s := FormatQuantity(q);
      forall i :: 0 <= i < |s| ==> (s[i] == '.' <==> (|s| - i) % 4 == 0)
  {
    FormatQuantityShape(q);
    assert FormatQuantity(q) == GroupThousands(NatToString(q), '.');
    GroupThousandsSeparators(NatToString(q), '.');
  }

  lemma QuantityHasNoBreak(q: int)
    ensures '\n' !in FormatQuantity(q)
  {
    FormatQuantityShape(q);
    var digits := NatToString(if q < 0 then -q else q);
    GroupThousandsChars(digits, '.');
  }

  lemma {:induction false} GroupThousandsChars(d: string, sep: char)
    requires AllDigits(d)
    ensures forall c :: c in GroupThousands(d, sep) ==> IsDigit(c) || c == sep
    decreases |d|
  {
    if |d| > 3 {
      DigitsSlices(d);
      GroupThousandsChars(d[..|d| - 3], sep);
    }
  }

  lemma LineThenBreak(a: string, line: string)
    requires '\n' !in line
    ensures CountChar(a + line + "\n", '\n') == CountChar(a, '\n') + 1
  {
    CountCharAbsent(line, '\n');
    CountCharAppend(a, line, '\n');
    CountCharAppend(a + line, "\n", '\n');
  }

  /** A labelled line holds no line break when its parts hold none. */
  lemma LabelledNoBreak(caption: string, value: string, unit: string)
    requires '\n' !in caption && '\n' !in value && '\n' !in unit
    ensures '\n' !in Labelled(caption, value, unit)
  {
  }

  lemma PriceNoBreak(fmt: Price -> string, x: Price)
    requires '\n' !in fmt(x)
    ensures '\n' !in CommaDecimal(fmt, x)
  {
    var s := fmt(x);
    forall i | 0 <= i < |s| ensures CommaDecimal(fmt, x)[i] != '\n' {
      assert s[i] != '\n' by { assert s[i] in s; }
    }
  }

  /** A block holds exactly seven line breaks when its name and prices hold none. */
  lemma BlockBreaks(name: string, g: Group, fmt: Price -> string)
    requires '\n' !in name
    requires forall x :: '\n' !in fmt(x)
    ensures CountChar(Block(name, g, fmt), '\n') == 7
  {
    QuantityHasNoBreak(g.groupQuantity);
    PriceNoBreak(fmt, g.groupMinPrice);
    PriceNoBreak(fmt, g.groupMaxPrice);
    PriceNoBreak(fmt, g.groupAvgPrice);
    var minL := Labelled("En az", CommaDecimal(fmt, g.groupMinPrice), "TL");
    var maxL := Labelled("En fazla", CommaDecimal(fmt, g.groupMaxPrice), "TL");
    var avgL := Labelled("Ortalama", CommaDecimal(fmt, g.groupAvgPrice), "TL");
    var qtyL := Labelled("Miktar", FormatQuantity(g.groupQuantity), "KG");
    LabelledNoBreak("En az", CommaDecimal(fmt, g.groupMinPrice), "TL");
    LabelledNoBreak("En fazla", CommaDecimal(fmt, g.groupMaxPrice), "TL");
    LabelledNoBreak("Ortalama", CommaDecimal(fmt, g.groupAvgPrice), "TL");
    LabelledNoBreak("Miktar", FormatQuantity(g.groupQuantity), "KG");
    var s1 := Header(name) + "\n";
    CountCharAbsent(Header(name), '\n');
    CountCharAppend(Header(name), "\n", '\n');
    LineThenBreak(s1, minL);
    LineThenBreak(s1 + minL + "\n", maxL);
    LineThenBreak(s1 + minL + "\n" + maxL + "\n", avgL);
    LineThenBreak(s1 + minL + "\n" + maxL + "\n" + avgL + "\n", qtyL);
    CountCharAppend(s1 + minL + "\n" + maxL + "\n" + avgL + "\n" + qtyL + "\n", "\n\n", '\n');
  }

  /** Each group contributes one block of exactly seven lines: the rendered text has
      seven line breaks per group. */
  lemma {:induction false} PriceListLineCount(keys: seq<string>, vals: map<string, Group>, fmt: Price -> string)
    requires forall k :: k in keys ==> k in vals && '\n' !in k
    requires forall x :: '\n' !in fmt(x)
    ensures CountChar(RenderKeys(keys, vals, fmt), '\n') == 7 * |keys|
    decreases |keys|
  {
    if keys != [] {
      var last := keys[|keys| - 1];
      PriceListLineCount(keys[..|keys| - 1], vals, fmt);
      BlockBreaks(last, vals[last], fmt);
      CountCharAppend(RenderKeys(keys[..|keys| - 1], vals, fmt), Block(last, vals[last], fmt), '\n');
    }
  }

  /** A non-empty price list starts with the pin of its first header. */
  lemma {:induction false} PriceListStartsWithPin(keys: seq<string>, vals: map<string, Group>, fmt: Price -> string)
    requires forall k :: k in keys ==> k in vals
    requires keys != []
    ensures |RenderKeys(keys, vals, fmt)| > 0 && RenderKeys(keys, vals, fmt)[0] == Pin[0]
    decreases |keys|
  {
    if |keys| > 1 {
      PriceListStartsWithPin(keys[..|keys| - 1], vals, fmt);
    } else {
      assert RenderKeys(keys, vals, fmt) == "" + Block(keys[0], vals[keys[0]], fmt);
    }
  }

  // ---------------------------------------------------------------------------
  // The price history chart

  /** The per-product lists the chart plots: dates (UTC days) and average prices. */
  datatype Series = Series(dates: seq<int>, prices: seq<Price>)

  datatype Chart = Chart(series: Dict<Series>, days: int, axisFormat: string)

  function AddPoint(d: Dict<Series>, r: PriceRecord): (res: Dict<Series>)
    ensures res.keys == if r.product_name in d.vals then d.keys else d.keys + [r.product_name]
    ensures res.vals.Keys == d.vals.Keys + {r.product_name}
    ensures forall k :: k in d.vals && k != r.product_name ==> res.vals[k] == d.vals[k]
    ensures var old_ := if r.product_name in d.vals then d.vals[r.product_name] else Series([], []);
      res.vals[r.product_name] == Series(old_.dates + [DayOf(r.created_at)], old_.prices + [r.average_price])
  {
    var name := r.product_name;
    var d1 := if name in d.vals then d else Put(d, name, Series([], []));
    var s := d1.vals[name];
    Put(d1, name, Series(s.dates + [DayOf(r.created_at)], s.prices + [r.average_price]))
  }

  function SeriesOf(data: seq<PriceRecord>): Dict<Series>
    decreases |data|
  {
    if data == [] then Empty() else AddPoint(SeriesOf(data[..|data| - 1]), data[|data| - 1])
  }

  lemma AddPointValid(d: Dict<Series>, r: PriceRecord)
    requires Valid(d)
    ensures Valid(AddPoint(d, r))
  {
    var name := r.product_name;
    if name !in d.vals {
      PutValid(d, name, Series([], []));
    }
    var d1 := if name in d.vals then d else Put(d, name, Series([], []));
    var s := d1.vals[name];
    PutValid(d1, name, Series(s.dates + [DayOf(r.created_at)], s.prices + [r.average_price]));
  }

  lemma {:induction false} SeriesValid(data: seq<PriceRecord>)
    ensures Valid(SeriesOf(data))
    decreases |data|
  {
    if data != [] {
      SeriesValid(data[..|data| - 1]);
      AddPointValid(SeriesOf(data[..|data| - 1]), data[|data| - 1]);
    }
  }

  lemma SeriesSnoc(data: seq<PriceRecord>, i: nat)
    requires i < |data|
    ensures SeriesOf(data[..i + 1]) == AddPoint(SeriesOf(data[..i]), data[i])
  {
    assert data[..i + 1][..i] == data[..i];
  }

  /** The body of that loop: create the product's lists when its name is new, then append
      the record's day and average price. */
  method AddToSeries(productData: Dict<Series>, item: PriceRecord) returns (r: Dict<Series>)
    ensures r == AddPoint(productData, item)
  {
    r := productData;
    if item.product_name !in r.vals {
      r := Put(r, item.product_name, Series([], []));
    }
    var s := r.vals[item.product_name];
    r := Put(r, item.product_name, Series(s.dates + [DayOf(item.created_at)], s.prices + [item.average_price]));
  }

  /** The grouping loop at the top of `Helper.generate_price_graph`. */
  method GroupForChart(data: seq<PriceRecord>) returns (productData: Dict<Series>)
    ensures productData == SeriesOf(data)
  {
    productData := Dict([], map[]);
    var i := 0;
    while i < |data|
      invariant 0 <= i <= |data|
      invariant productData == SeriesOf(data[..i])
    {
      SeriesSnoc(data, i);
      productData := AddToSeries(productData, data[i]);
      i := i + 1;
    }
    assert data[..i] == data;
  }

  /** The date-axis format: day/month up to 30 days, month/year beyond. */
  function AxisFormat(days: int): (f: string)
    ensures f == "%d/%m" <==> days <= 30
    ensures f == "%m/%y" <==> days > 30
  {
    if days <= 7 then "%d/%m" else if days <= 30 then "%d/%m" else "%m/%y"
  }

  /** `Helper.generate_price_graph`: the data it plots; the image itself is not modelled. */
  method GeneratePriceGraph(data: seq<PriceRecord>, days: int) returns (chart: Chart)
    ensures chart == Chart(SeriesOf(data), days, AxisFormat(days))
  {
    var productData := GroupForChart(data);
    chart := Chart(productData, days, AxisFormat(days));
  }

  function DatesOf(data: seq<PriceRecord>, name: string): seq<int>
    decreases |data|
  {
    if data == [] then []
    else
      var last := data[|data| - 1];
      DatesOf(data[..|data| - 1], name) + (if last.product_name == name then [DayOf(last.created_at)] else [])
  }

  function PricesOf(data: seq<PriceRecord>, name: string): seq<Price>
    decreases |data|
  {
    if data == [] then []
    else
      var last := data[|data| - 1];
      PricesOf(data[..|data| - 1], name) + (if last.product_name == name then [last.average_price] else [])
  }

  function ProductNames(data: seq<PriceRecord>): set<string> {
    set r | r in data :: r.product_name
  }

  lemma {:induction false} SeriesKeys(data: seq<PriceRecord>)
    ensures SeriesOf(data).vals.Keys == ProductNames(data)
    decreases |data|
  {
    if data != [] {
      var front := data[..|data| - 1];
      SeriesKeys(front);
      ProductNamesSnoc(data);
      assert SeriesOf(data) == AddPoint(SeriesOf(front), data[|data| - 1]);
    }
  }

  lemma ProductNamesSnoc(data: seq<PriceRecord>)
    requires data != []
    ensures ProductNames(data) == ProductNames(data[..|data| - 1]) + {data[|data| - 1].product_name}
  {
    var front := data[..|data| - 1];
    assert data == front + [data[|data| - 1]];
    forall n
      ensures n in ProductNames(data) <==> n in ProductNames(front) || n == data[|data| - 1].product_name
    {
      if n in ProductNames(data) {
        var r :| r in data && r.product_name == n;
      }
      if n in ProductNames(front) {
        var r :| r in front && r.product_name == n;
        assert r in data;
      }
    }
  }

  lemma {:induction false} SeriesOfAbsent(data: seq<PriceRecord>, name: string)
    requires name !in ProductNames(data)
    ensures DatesOf(data, name) == [] && PricesOf(data, name) == []
    decreases |data|
  {
    if data != [] {
      var front := data[..|data| - 1];
      assert data[|data| - 1] in data;
      assert ProductNames(front) <= ProductNames(data) by {
        forall r | r in front ensures r in data { }
      }
      SeriesOfAbsent(front, name);
    }
  }

  /** Each product's series holds the dates and average prices of exactly its records, in
      input order, so its two lists have equal length. */
  lemma {:induction false} SeriesContents(data: seq<PriceRecord>, name: string)
    requires name in SeriesOf(data).vals
    ensures SeriesOf(data).vals[name].dates == DatesOf(data, name)
    ensures SeriesOf(data).vals[name].prices == PricesOf(data, name)
    ensures |SeriesOf(data).vals[name].dates| == |SeriesOf(data).vals[name].prices|
    decreases |data|
  {
    var front := data[..|data| - 1];
    if name in SeriesOf(front).vals {
      SeriesContents(front, name);
    } else {
      SeriesKeys(front);
      SeriesOfAbsent(front, name);
    }
  }

  function PointCount(s: Series): nat {
    |s.dates|
  }

  lemma AddPointCount(d: Dict<Series>, r: PriceRecord)
    requires Valid(d)
    ensures SumOver(AddPoint(d, r).keys, AddPoint(d, r).vals, PointCount) == SumOver(d.keys, d.vals, PointCount) + 1
  {
    var name := r.product_name;
    var d1 := if name in d.vals then d else Put(d, name, Series([], []));
    if name !in d.vals {
      SumOverUpdate(d.keys, d.vals, name, Series([], []), PointCount);
      SumOverAppend(d.keys, name, d1.vals, PointCount);
    }
    assert SumOver(d1.keys, d1.vals, PointCount) == SumOver(d.keys, d.vals, PointCount);
    var s := d1.vals[name];
    SumOverUpdate(d1.keys, d1.vals, name,
      Series(s.dates + [DayOf(r.created_at)], s.prices + [r.average_price]), PointCount);
  }

  /** The series hold `len(data)` points in all. */
  lemma {:induction false} SeriesTotal(data: seq<PriceRecord>)
    ensures SumOver(SeriesOf(data).keys, SeriesOf(data).vals, PointCount) == |data|
    decreases |data|
  {
    if data != [] {
      SeriesTotal(data[..|data| - 1]);
      SeriesValid(data[..|data| - 1]);
      AddPointCount(SeriesOf(data[..|data| - 1]), data[|data| - 1]);
    }
  }
}

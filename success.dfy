/** The page a buyer lands on after paying. It loads the product catalogue
    and the study-material catalogue, turns every material item into a
    product numbered after the highest existing product id, looks up the
    product named by `product_id` in the page URL, and when that product has
    a link shows it and schedules a redirect to it. The two catalogue
    fetches are passed in as their parsed results (a failed fetch already
    reads as an empty list); the five-second timer is recorded, not run. */
module Success {
  import opened Js

  /** A catalogue entry as the page sees it, from either source. */
  datatype Product = Product(
    id: JsValue, name: JsValue, telegramLink: JsValue, link: JsValue,
    description: JsValue, category: JsValue, price: JsValue, image: JsValue)

  /** An entry of a material group: its `label` ("" when absent) and the
      `key` the bot link carries (None when absent). */
  datatype Item = Item(itemLabel: string, key: Option<string>)

  /** A material group: its `title` ("" when absent) and its `items`, None
      when the field is absent or null. */
  datatype Group = Group(title: string, items: Option<seq<Item>>)

  /** The parsed `material.json`: an array of groups, or anything else. */
  datatype Material = NotArray | Groups(groups: seq<Group>)

  const DefaultPrice := 10
  const DefaultImage := "/images/default-book.jpg"
  const MaterialCategory := "NEET,JEE,BOARDS"
  const BotLinkPrefix := "https://t.me/Material_eduhubkmrbot?start="

  /** `group.items || []`. */
  function ItemsOf(g: Group): seq<Item> {
    if g.items.Some? then g.items.value else []
  }

  /** The number of items in the first `n` groups, a group without items
      counting 0. */
  function TotalItems(gs: seq<Group>, n: int): nat
    requires 0 <= n <= |gs|
  {
    if n == 0 then 0 else TotalItems(gs, n - 1) + |ItemsOf(gs[n - 1])|
  }

  /** `${item.key}`: an absent key prints as "undefined". */
  function KeyText(key: Option<string>): string {
    if key.Some? then key.value else "undefined"
  }

  /** The object `transformMaterialToProducts` makes from one item of a
      group under the given id. */
  function MaterialProduct(group: Group, item: Item, id: int): Product {
    Product(Num(id), Str(OrElse(item.itemLabel, "Untitled")),
            Str(BotLinkPrefix + KeyText(item.key)), Undefined,
            Str(OrElse(item.itemLabel, "Material") + " - " + OrElse(group.title, "General")),
            Str(MaterialCategory), Num(DefaultPrice), Str(DefaultImage))
  }

  /** The per-item callback: a group, one of its items, and the counter. */
  type Builder = (Group, Item, int) -> Product

  /** The inner `map` over the first `n` items of a group: the callback
      applied to each item and to the counter, which starts at `next` and
      goes up by one per item. */
  function NumberItems(build: Builder, group: Group, items: seq<Item>, n: int, next: int): (ps: seq<Product>)
    requires 0 <= n <= |items|
    ensures |ps| == n
  {
    if n == 0 then [] else NumberItems(build, group, items, n - 1, next) + [build(group, items[n - 1], next + n - 1)]
  }

  /** The outer `flatMap` over the first `n` groups, the counter running on
      across groups. */
  function FlatNumbered(build: Builder, gs: seq<Group>, n: int, next: int): (ps: seq<Product>)
    requires 0 <= n <= |gs|
    ensures |ps| == TotalItems(gs, n)
  {
    if n == 0 then []
    else
      var last := gs[n - 1];
      FlatNumbered(build, gs, n - 1, next) + NumberItems(build, last, ItemsOf(last), |ItemsOf(last)|, next + TotalItems(gs, n - 1))
  }

  /** What `transformMaterialToProducts(material, startId)` returns: nothing
      for a non-array, else one product per item, numbered from startId + 1. */
  function Transform(material: Material, startId: int): (ps: seq<Product>)
    ensures material.NotArray? ==> ps == []
    ensures material.Groups? ==> |ps| == TotalItems(material.groups, |material.groups|)
  {
    if material.NotArray? then [] else FlatNumbered(MaterialProduct, material.groups, |material.groups|, startId + 1)
  }

  /** Item `k` of the numbered items is built from item `k` under number
      next + k. */
  lemma {:induction false} NumberItemsAt(build: Builder, group: Group, items: seq<Item>, n: int, next: int, k: int)
    requires 0 <= k < n <= |items|
    ensures NumberItems(build, group, items, n, next)[k] == build(group, items[k], next + k)
    decreases n
  {
    if k < n - 1 {
      NumberItemsAt(build, group, items, n - 1, next, k);
    }
  }

  /** The products of the first `g` groups come first. */
  lemma {:induction false} FlatPrefix(build: Builder, gs: seq<Group>, g: int, n: int, next: int)
    requires 0 <= g <= n <= |gs|
    ensures FlatNumbered(build, gs, g, next) <= FlatNumbered(build, gs, n, next)
    decreases n - g
  {
    if g < n {
      FlatPrefix(build, gs, g, n - 1, next);
    }
  }

  /** The inner `map` of `transformMaterialToProducts` over one group's
      items: each item takes the counter's value, and the counter moves on
      by one per item. */
  method NumberGroup(group: Group, idCounter: int) returns (products: seq<Product>, nextId: int)
    ensures products == NumberItems(MaterialProduct, group, ItemsOf(group), |ItemsOf(group)|, idCounter)
    ensures nextId == idCounter + |ItemsOf(group)|
  {
    var items := ItemsOf(group);
    products := [];
    nextId := idCounter;
    var j := 0;
    while j < |items|
      invariant 0 <= j <= |items|
      invariant products == NumberItems(MaterialProduct, group, items, j, idCounter)
      invariant nextId == idCounter + j
    {
      products := products + [MaterialProduct(group, items[j], nextId)];
      nextId := nextId + 1;
      j := j + 1;
    }
  }

  /** `transformMaterialToProducts`: the running `idCounter` hands out
      startId + 1, startId + 2, … to the items in group-then-item order. */
  method TransformMaterialToProducts(material: Material, startId: int) returns (products: seq<Product>)
    ensures products == Transform(material, startId)
  {
    var idCounter := startId + 1;
    if material.NotArray? {
      return [];
    }
    var groups := material.groups;
    products := [];
    var g := 0;
    while g < |groups|
      invariant 0 <= g <= |groups|
      invariant products == FlatNumbered(MaterialProduct, groups, g, startId + 1)
      invariant idCounter == startId + 1 + TotalItems(groups, g)
    {
      var groupProducts;
      groupProducts, idCounter := NumberGroup(groups[g], idCounter);
      products := products + groupProducts;
      g := g + 1;
    }
  }

  /** Item `k` of group `g` becomes the product numbered from `next` on by
      the number of items in the groups before `g` plus `k`, built from that
      item and its group. */
  lemma {:induction false} FlatAt(build: Builder, gs: seq<Group>, g: int, k: int, next: int)
    requires 0 <= g < |gs| && 0 <= k < |ItemsOf(gs[g])|
    ensures TotalItems(gs, g) + k < TotalItems(gs, |gs|)
    ensures FlatNumbered(build, gs, |gs|, next)[TotalItems(gs, g) + k]
         == build(gs[g], ItemsOf(gs[g])[k], next + TotalItems(gs, g) + k)
  {
    FlatAtGroup(build, gs, g, k, next);
    FlatPrefix(build, gs, g + 1, |gs|, next);
  }

  /** The same, among the products of the groups up to and including `g`. */
  lemma {:induction false} FlatAtGroup(build: Builder, gs: seq<Group>, g: int, k: int, next: int)
    requires 0 <= g < |gs| && 0 <= k < |ItemsOf(gs[g])|
    ensures TotalItems(gs, g) + k < TotalItems(gs, g + 1)
    ensures FlatNumbered(build, gs, g + 1, next)[TotalItems(gs, g) + k]
         == build(gs[g], ItemsOf(gs[g])[k], next + TotalItems(gs, g) + k)
  {
    var before := FlatNumbered(build, gs, g, next);
    var here := NumberItems(build, gs[g], ItemsOf(gs[g]), |ItemsOf(gs[g])|, next + TotalItems(gs, g));
    NumberItemsAt(build, gs[g], ItemsOf(gs[g]), |ItemsOf(gs[g])|, next + TotalItems(gs, g), k);
    assert FlatNumbered(build, gs, g + 1, next) == before + here;
    assert (before + here)[|before| + k] == here[k];
  }

  /** With a callback that uses the counter as the id, position `i` of the
      first `n` groups' products carries id next + i. */
  lemma {:induction false} FlatIds(build: Builder, gs: seq<Group>, n: int, next: int, i: int)
    requires forall g, it, c :: build(g, it, c).id == Num(c)
    requires 0 <= n <= |gs| && 0 <= i < TotalItems(gs, n)
    ensures FlatNumbered(build, gs, n, next)[i].id == Num(next + i)
    decreases n
  {
    if i < TotalItems(gs, n - 1) {
      FlatIds(build, gs, n - 1, next, i);
    } else {
      var last := gs[n - 1];
      NumberItemsAt(build, last, ItemsOf(last), |ItemsOf(last)|, next + TotalItems(gs, n - 1), i - TotalItems(gs, n - 1));
    }
  }

  /** A property every built product has holds of every flattened one. */
  lemma {:induction false} FlatEvery(build: Builder, ok: Product -> bool, gs: seq<Group>, n: int, next: int, i: int)
    requires forall g, it, c :: ok(build(g, it, c))
    requires 0 <= n <= |gs| && 0 <= i < TotalItems(gs, n)
    ensures ok(FlatNumbered(build, gs, n, next)[i])
    decreases n
  {
    if i < TotalItems(gs, n - 1) {
      FlatEvery(build, ok, gs, n - 1, next, i);
    } else {
      var last := gs[n - 1];
      NumberItemsAt(build, last, ItemsOf(last), |ItemsOf(last)|, next + TotalItems(gs, n - 1), i - TotalItems(gs, n - 1));
    }
  }

  /** Item `k` of group `g` becomes the product numbered startId + 1 plus
      the number of items in the groups before `g` plus `k`, built from that
      item and its group. */
  lemma {:induction false} ItemPosition(material: Material, startId: int, g: int, k: int, at: int)
    requires material.Groups? && 0 <= g < |material.groups| && 0 <= k < |ItemsOf(material.groups[g])|
    requires at == TotalItems(material.groups, g) + k
    ensures at < |Transform(material, startId)|
    ensures Transform(material, startId)[at]
         == MaterialProduct(material.groups[g], ItemsOf(material.groups[g])[k], startId + 1 + at)
  {
    FlatAt(MaterialProduct, material.groups, g, k, startId + 1);
  }

  /** The generated ids run startId + 1, startId + 2, … without a gap. */
  lemma {:induction false} GeneratedId(material: Material, startId: int, i: int)
    requires 0 <= i < |Transform(material, startId)|
    ensures Transform(material, startId)[i].id == Num(startId + 1 + i)
  {
    FlatIds(MaterialProduct, material.groups, |material.groups|, startId + 1, i);
  }

  /** What a generated product looks like whatever its item: a non-empty
      name, a link to the bot and no other link, the fixed price and the
      fixed category. */
  predicate IsMaterialShaped(p: Product) {
    && Truthy(p.name)
    && p.telegramLink.Str? && BotLinkPrefix <= p.telegramLink.s
    && !Truthy(p.link)
    && p.price == Num(10) && p.category == Str("NEET,JEE,BOARDS")
  }

  lemma {:induction false} GeneratedProductShape(material: Material, startId: int, i: int)
    requires 0 <= i < |Transform(material, startId)|
    ensures IsMaterialShaped(Transform(material, startId)[i])
  {
    forall g, it, n ensures IsMaterialShaped(MaterialProduct(g, it, n)) {
      var p := MaterialProduct(g, it, n);
      assert BotLinkPrefix <= p.telegramLink.s;
    }
    FlatEvery(MaterialProduct, IsMaterialShaped, material.groups, |material.groups|, startId + 1, i);
  }

  /** `Number(v) || 0` for the values an id can hold. A string counts only
      when it is a plain run of decimal digits. */
  function NumberOf(v: JsValue): int {
    match v
    case Undefined => 0
    case Null => 0
    case Bool(b) => if b then 1 else 0
    case Num(n) => n
    case Str(s) => if AllDigits(s) then DigitsValue(s) else 0
  }

  /** The `maxProductId` computation: 0 for an empty list, else the largest
      `Number(p.id) || 0`. */
  function MaxProductId(ps: seq<Product>): (m: int)
    ensures |ps| == 0 ==> m == 0
    ensures forall i :: 0 <= i < |ps| ==> NumberOf(ps[i].id) <= m
    ensures |ps| > 0 ==> exists i :: 0 <= i < |ps| && m == NumberOf(ps[i].id)
  {
    if |ps| == 0 then 0
    else if |ps| == 1 then NumberOf(ps[0].id)
    else
      var rest := MaxProductId(ps[1..]);
      if NumberOf(ps[0].id) >= rest then NumberOf(ps[0].id) else rest
  }

  /** No generated id equals a numeric id already in the product list. */
  lemma {:induction false} NoIdCollision(productsRes: seq<Product>, material: Material, i: int, j: int)
    requires 0 <= i < |productsRes|
    requires 0 <= j < |Transform(material, MaxProductId(productsRes))|
    ensures productsRes[i].id != Transform(material, MaxProductId(productsRes))[j].id
  {
    GeneratedId(material, MaxProductId(productsRes), j);
  }

  /** `products.find(p => p.id === target)`, the target being None for NaN,
      which equals nothing. */
  function FindById(ps: seq<Product>, target: Option<int>): (r: Option<Product>)
    ensures r.Some? ==> target.Some? && r.value.id == Num(target.value) && r.value in ps
    ensures r.None? ==> target.None? || forall i :: 0 <= i < |ps| ==> ps[i].id != Num(target.value)
  {
    if target.None? || |ps| == 0 then None
    else if ps[0].id == Num(target.value) then Some(ps[0])
    else FindById(ps[1..], target)
  }

  /** `s` without its leading `\s` characters. */
  function TrimStart(s: string): (t: string)
    ensures |t| <= |s| && t == s[|s| - |t|..]
    ensures forall k :: 0 <= k < |s| - |t| ==> IsJsWhitespace(s[k])
    ensures |t| > 0 ==> !IsJsWhitespace(t[0])
  {
    if |s| > 0 && IsJsWhitespace(s[0]) then TrimStart(s[1..]) else s
  }

  /** The longest run of decimal digits at the start of `s`. */
  function DigitPrefix(s: string): (d: string)
    ensures AllDigits(d) && d <= s
    ensures |d| < |s| ==> !IsDigit(s[|d|])
  {
    if |s| > 0 && IsDigit(s[0]) then [s[0]] + DigitPrefix(s[1..]) else []
  }

  /** `parseInt(s)` in base ten: leading whitespace, an optional sign, then
      as many digits as follow; None (NaN) when there are none. */
  function ParseInt(s: string): Option<int> {
    ParseSigned(TrimStart(s))
  }

  /** An optional sign, then as many digits as follow. */
  function ParseSigned(t: string): Option<int> {
    var negative := |t| > 0 && t[0] == '-';
    var body := if |t| > 0 && (t[0] == '-' || t[0] == '+') then t[1..] else t;
    var d := DigitPrefix(body);
    if |d| == 0 then None
    else if negative then Some(-(DigitsValue(d) as int)) else Some(DigitsValue(d))
  }

  lemma {:induction false} DigitPrefixAll(s: string)
    requires AllDigits(s)
    ensures DigitPrefix(s) == s
  {
    if |s| > 0 {
      DigitPrefixAll(s[1..]);
      assert [s[0]] + s[1..] == s;
    }
  }

  /** A string whose first character is not `\s` has nothing to trim. */
  lemma {:induction false} TrimStartNoSpace(s: string)
    requires |s| > 0 && !IsJsWhitespace(s[0])
    ensures TrimStart(s) == s
  {
  }

  /** Reading a digit string back gives its value. */
  lemma {:induction false} ParseIntOfDigits(s: string, negative: bool)
    requires |s| > 0 && AllDigits(s)
    ensures ParseInt(if negative then "-" + s else s)
         == Some(if negative then -(DigitsValue(s) as int) else DigitsValue(s) as int)
  {
    var t := if negative then "-" + s else s;
    assert IsDigit(s[0]);
    TrimStartNoSpace(t);
    ParseSignedDigits(s, negative);
  }

  lemma {:induction false} ParseSignedDigits(s: string, negative: bool)
    requires |s| > 0 && AllDigits(s)
    ensures ParseSigned(if negative then "-" + s else s)
         == Some(if negative then -(DigitsValue(s) as int) else DigitsValue(s) as int)
  {
    DigitPrefixAll(s);
    if negative {
      assert ("-" + s)[1..] == s;
    } else {
      assert IsDigit(s[0]);
    }
  }

  /** Reading a printed integer back gives the integer. */
  lemma {:induction false} ParseIntOfIntToString(n: int)
    ensures ParseInt(IntToString(n)) == Some(n)
  {
    var a: nat := if n < 0 then -n else n;
    DigitsValueOfNatToString(a);
    ParseIntOfDigits(NatToString(a), n < 0);
  }

  /** `product.telegramLink || product.link`, when a product was found and
      one of the two is truthy. */
  function ChooseLink(product: Option<Product>): (link: Option<JsValue>)
    ensures link.Some? <==> product.Some? && (Truthy(product.value.telegramLink) || Truthy(product.value.link))
    ensures link.Some? ==> Truthy(link.value)
    ensures link.Some? && Truthy(product.value.telegramLink) ==> link.value == product.value.telegramLink
    ensures link.Some? && !Truthy(product.value.telegramLink) ==> link.value == product.value.link
  {
    if product.None? then None
    else if Truthy(product.value.telegramLink) then Some(product.value.telegramLink)
    else if Truthy(product.value.link) then Some(product.value.link)
    else None
  }

  /** Where loading the page's product ends: the link to show and redirect
      to, if any. */
  function ResolveLink(productId: string, productsRes: seq<Product>, materialRes: Material): Option<JsValue> {
    ChooseLink(FindById(productsRes + Transform(materialRes, MaxProductId(productsRes)), ParseInt(productId)))
  }

  /** The lookup returns the first product carrying the id. */
  lemma {:induction false} FindFirst(ps: seq<Product>, n: int, i: int)
    requires 0 <= i < |ps| && ps[i].id == Num(n)
    requires forall j :: 0 <= j < i ==> ps[j].id != Num(n)
    ensures FindById(ps, Some(n)) == Some(ps[i])
    decreases i
  {
    if i > 0 {
      FindFirst(ps[1..], n, i - 1);
    }
  }

  /** A lookup passes over a prefix that does not hold the id. */
  lemma {:induction false} FindSkip(a: seq<Product>, b: seq<Product>, n: int)
    requires forall j :: 0 <= j < |a| ==> a[j].id != Num(n)
    ensures FindById(a + b, Some(n)) == FindById(b, Some(n))
    decreases |a|
  {
    if |a| > 0 {
      assert (a + b)[0] == a[0];
      assert (a + b)[1..] == a[1..] + b;
      FindSkip(a[1..], b, n);
    } else {
      assert a + b == b;
    }
  }

  /** No catalogue product carries an id above the catalogue's maximum. */
  lemma {:induction false} CatalogueIdsBelow(productsRes: seq<Product>, n: int)
    requires n > MaxProductId(productsRes)
    ensures forall j :: 0 <= j < |productsRes| ==> productsRes[j].id != Num(n)
  {
    forall j | 0 <= j < |productsRes| ensures productsRes[j].id != Num(n) {
      assert NumberOf(productsRes[j].id) <= MaxProductId(productsRes);
    }
  }

  /** A lookup over two lists finds position `k` of the second when the
      first does not hold the id and `k` is its first holder in the second. */
  lemma {:induction false} FindInSecond(a: seq<Product>, b: seq<Product>, n: int, k: int)
    requires forall j :: 0 <= j < |a| ==> a[j].id != Num(n)
    requires 0 <= k < |b| && b[k].id == Num(n)
    requires forall j :: 0 <= j < k ==> b[j].id != Num(n)
    ensures FindById(a + b, Some(n)) == Some(b[k])
  {
    FindSkip(a, b, n);
    FindFirst(b, n, k);
  }

  /** Looking up a generated id finds the product generated for that
      item: the catalogue holds no product with that id, since it lies above
      the catalogue's maximum, and no earlier generated product has it, since
      the ids run on without repeating. */
  lemma {:induction false} GeneratedLookup(build: Builder, productsRes: seq<Product>, gs: seq<Group>, g: int, k: int, id: int)
    requires forall gr, it, c :: build(gr, it, c).id == Num(c)
    requires 0 <= g < |gs| && 0 <= k < |ItemsOf(gs[g])|
    requires id == MaxProductId(productsRes) + 1 + TotalItems(gs, g) + k
    ensures FindById(productsRes + FlatNumbered(build, gs, |gs|, MaxProductId(productsRes) + 1), Some(id))
         == Some(build(gs[g], ItemsOf(gs[g])[k], id))
  {
    var next := MaxProductId(productsRes) + 1;
    var at := TotalItems(gs, g) + k;
    var ms := FlatNumbered(build, gs, |gs|, next);
    FlatAt(build, gs, g, k, next);
    assert ms[at] == build(gs[g], ItemsOf(gs[g])[k], id);
    forall j | 0 <= j < at ensures ms[j].id != Num(id) {
      FlatIds(build, gs, |gs|, next, j);
    }
    CatalogueIdsBelow(productsRes, id);
    FindInSecond(productsRes, ms, id, at);
  }

  /** A generated product's link is the bot link for its item's key. */
  lemma {:induction false} MaterialLink(group: Group, item: Item, id: int)
    ensures ChooseLink(Some(MaterialProduct(group, item, id))) == Some(Str(BotLinkPrefix + KeyText(item.key)))
  {
    assert |BotLinkPrefix + KeyText(item.key)| > 0;
  }

  /** Looking up a generated id on the page finds the product made from
      that item. */
  lemma {:induction false} MaterialFound(productsRes: seq<Product>, materialRes: Material, g: int, k: int, id: int)
    requires materialRes.Groups? && 0 <= g < |materialRes.groups| && 0 <= k < |ItemsOf(materialRes.groups[g])|
    requires id == MaxProductId(productsRes) + 1 + TotalItems(materialRes.groups, g) + k
    ensures FindById(productsRes + Transform(materialRes, MaxProductId(productsRes)), Some(id))
         == Some(MaterialProduct(materialRes.groups[g], ItemsOf(materialRes.groups[g])[k], id))
  {
    var gs := materialRes.groups;
    forall gr, it, c ensures MaterialProduct(gr, it, c).id == Num(c) {
    }
    GeneratedLookup(MaterialProduct, productsRes, gs, g, k, id);
  }

  /** Every material item is reachable from the success page: asked for the
      id its item was given, the page resolves to the bot link for the
      item's key. */
  lemma {:induction false} MaterialItemReachable(productsRes: seq<Product>, materialRes: Material, g: int, k: int)
    requires materialRes.Groups? && 0 <= g < |materialRes.groups| && 0 <= k < |ItemsOf(materialRes.groups[g])|
    ensures var id := MaxProductId(productsRes) + 1 + TotalItems(materialRes.groups, g) + k;
      ResolveLink(IntToString(id), productsRes, materialRes)
        == Some(Str(BotLinkPrefix + KeyText(ItemsOf(materialRes.groups[g])[k].key)))
  {
    var gs := materialRes.groups;
    var id := MaxProductId(productsRes) + 1 + TotalItems(gs, g) + k;
    ParseIntOfIntToString(id);
    MaterialFound(productsRes, materialRes, g, k, id);
    MaterialLink(gs[g], ItemsOf(gs[g])[k], id);
  }

  /** What the page card shows: the spinner, the link to join, or the
      message that no link was found. */
  datatype View = Spinner | JoinLink(href: JsValue) | LinkNotFound

  /** The page's state. `productIdParam` is `router.query.product_id`. */
  class SuccessPage {
    const productIdParam: Option<string>
    var telegramLink: JsValue
    var isLoading: bool
    /** The target of the pending five-second redirect, if one was set. */
    var scheduledRedirect: Option<JsValue>

    constructor(productIdParam: Option<string>)
      ensures this.productIdParam == productIdParam
      ensures telegramLink == Str("") && isLoading && scheduledRedirect.None?
    {
      this.productIdParam := productIdParam;
      telegramLink := Str("");
      isLoading := true;
      scheduledRedirect := None;
    }

    predicate HasProductId()
      reads this
    {
      productIdParam.Some? && productIdParam.value != ""
    }

    function View(): View
      reads this
    {
      if isLoading then Spinner
      else if Truthy(telegramLink) then JoinLink(telegramLink)
      else LinkNotFound
    }

    /** The effect keyed on `product_id`. Without one nothing happens and
        the spinner stays; with one the catalogues are merged, the product
        looked up, its link shown and a redirect to it scheduled when there
        is one, and loading ends either way. */
    method LoadProduct(productsRes: seq<Product>, materialRes: Material) returns (fetched: bool)
      modifies this
      ensures fetched == HasProductId()
      ensures !fetched ==>
        telegramLink == old(telegramLink) && isLoading == old(isLoading) && scheduledRedirect == old(scheduledRedirect)
      ensures fetched ==> !isLoading
      ensures fetched ==> var link := ResolveLink(productIdParam.value, productsRes, materialRes);
        && (link.Some? ==> telegramLink == link.value && scheduledRedirect == link && View() == JoinLink(link.value))
        && (link.None? ==> telegramLink == old(telegramLink) && scheduledRedirect == old(scheduledRedirect))
      ensures fetched && ResolveLink(productIdParam.value, productsRes, materialRes).None? && !Truthy(old(telegramLink)) ==>
        View() == LinkNotFound
      ensures !fetched && old(isLoading) ==> View() == Spinner
    {
      if !HasProductId() {
        return false;
      }
      fetched := true;
      var maxProductId := MaxProductId(productsRes);
      var materialProducts := TransformMaterialToProducts(materialRes, maxProductId);
      var combinedProducts := productsRes + materialProducts;
      var product := FindById(combinedProducts, ParseInt(productIdParam.value));
      var link := ChooseLink(product);
      if link.Some? {
        telegramLink := link.value;
        scheduledRedirect := link;
      }
      isLoading := false;
    }
  }
}

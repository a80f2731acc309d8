/** The shopping cart of the storefront script (class `Cart`,
    public/js/main.js): an ordered list of lines kept in memory and copied
    into a browser storage slot after every change. */
module ShoppingCart {
  import opened Lists
  import opened Catalog

  /** One cart line: a snapshot of the product's id, name, price and image,
      the chosen size and the quantity. */
  datatype Line = Line(id: int, name: string, price: int, size: string, quantity: int, image: string)

  /** The test `item.id === productId && item.size === size`. */
  predicate Matches(l: Line, id: int, size: string)
  {
    l.id == id && l.size == size
  }

  function Other(id: int, size: string): Line -> bool
  {
    (l: Line) => !Matches(l, id, size)
  }

  /** The cart's invariant: no two lines share an (id, size) key. */
  predicate UniqueKeys(lines: seq<Line>)
  {
    forall i, j :: 0 <= i < j < |lines| ==> !Matches(lines[j], lines[i].id, lines[i].size)
  }

  function LineTotal(l: Line): int
  {
    l.price * l.quantity
  }

  /** Changing a line's quantity changes its share of the total by the
      difference times its unit price. */
  lemma LineTotalWithQuantity(l: Line, quantity: int)
    ensures LineTotal(l.(quantity := quantity)) == LineTotal(l) + l.price * (quantity - l.quantity)
  {
    assert l.price * quantity == l.price * l.quantity + l.price * (quantity - l.quantity);
  }

  /** Adding `quantity` to a line raises its share of the total by
      `quantity` times its unit price. */
  lemma LineTotalAdd(l: Line, quantity: int)
    ensures LineTotal(l.(quantity := l.quantity + quantity)) == LineTotal(l) + quantity * l.price
  {
    assert l.price * (l.quantity + quantity) == l.price * l.quantity + quantity * l.price;
  }

  function LineQuantity(l: Line): int
  {
    l.quantity
  }

  /** `getTotal`: the sum of price times quantity over the lines. */
  function Total(lines: seq<Line>): (r: int)
    ensures lines == [] ==> r == 0
    ensures (forall i :: 0 <= i < |lines| ==> lines[i].price >= 0 && lines[i].quantity >= 0) ==> r >= 0
  {
    SumBounds(lines, LineTotal);
    Sum(lines, LineTotal)
  }

  /** `getCount`: the sum of the quantities. */
  function Count(lines: seq<Line>): (r: int)
    ensures lines == [] ==> r == 0
    ensures (forall i :: 0 <= i < |lines| ==> lines[i].quantity >= 0) ==> r >= 0
    ensures (forall i :: 0 <= i < |lines| ==> lines[i].quantity >= 1) ==> r >= |lines|
  {
    SumBounds(lines, LineQuantity);
    Sum(lines, LineQuantity)
  }

  /** `items.find(...)` for the key (id, size): the position of the first
      matching line, or None when no line matches. */
  function FindLine(lines: seq<Line>, id: int, size: string): (r: Option<nat>)
    ensures r.Some? ==> r.value < |lines| && Matches(lines[r.value], id, size)
    ensures r.Some? ==> forall j :: 0 <= j < r.value ==> !Matches(lines[j], id, size)
    ensures r.None? <==> forall j :: 0 <= j < |lines| ==> !Matches(lines[j], id, size)
  {
    if lines == [] then None
    else if Matches(lines[0], id, size) then Some(0)
    else match FindLine(lines[1..], id, size)
      case None => None
      case Some(k) => Some(k + 1)
  }

  /** A matching line with no match before it is the one `find` returns. */
  lemma FindLineAt(lines: seq<Line>, id: int, size: string, i: nat)
    requires i < |lines| && Matches(lines[i], id, size)
    requires forall j :: 0 <= j < i ==> !Matches(lines[j], id, size)
    ensures FindLine(lines, id, size) == Some(i)
  {
    match FindLine(lines, id, size)
    case None =>
    case Some(k) =>
      assert !(k < i) && !(i < k);
  }

  /** Under the invariant, the first matching line is the only one. */
  lemma FindLineUnique(lines: seq<Line>, id: int, size: string, i: nat)
    requires UniqueKeys(lines)
    requires FindLine(lines, id, size) == Some(i)
    ensures forall j :: 0 <= j < |lines| && j != i ==> !Matches(lines[j], id, size)
  {
  }

  /** The line `addItem` appends for a product not yet in the cart. */
  function NewLine(product: Product, size: string, quantity: int): Line
  {
    Line(product.id, product.name, product.price, size, quantity, product.image)
  }

  /** The lines after `addItem(product, size, quantity)`. */
  function AddTo(lines: seq<Line>, product: Product, size: string, quantity: int): (r: seq<Line>)
    ensures FindLine(lines, product.id, size).Some? ==>
      var i := FindLine(lines, product.id, size).value;
      |r| == |lines| && r[i] == lines[i].(quantity := lines[i].quantity + quantity) &&
      forall j :: 0 <= j < |r| && j != i ==> r[j] == lines[j]
    ensures FindLine(lines, product.id, size).None? ==>
      |r| == |lines| + 1 && r[..|lines|] == lines && r[|lines|] == NewLine(product, size, quantity)
  {
    match FindLine(lines, product.id, size)
    case Some(i) => lines[i := lines[i].(quantity := lines[i].quantity + quantity)]
    case None => lines + [NewLine(product, size, quantity)]
  }

  /** Adding keeps at most one line per (id, size). */
  lemma AddToKeepsKeysUnique(lines: seq<Line>, product: Product, size: string, quantity: int)
    requires UniqueKeys(lines)
    ensures UniqueKeys(AddTo(lines, product, size, quantity))
  {
    var r := AddTo(lines, product, size, quantity);
    forall i, j | 0 <= i < j < |r| ensures !Matches(r[j], r[i].id, r[i].size) {
      if j == |lines| {
        assert r[i] == lines[i];
      }
    }
  }

  /** Adding raises the count by exactly the quantity added. */
  lemma AddToCount(lines: seq<Line>, product: Product, size: string, quantity: int)
    ensures Count(AddTo(lines, product, size, quantity)) == Count(lines) + quantity
  {
    match FindLine(lines, product.id, size)
    case Some(i) =>
      var l := lines[i].(quantity := lines[i].quantity + quantity);
      assert AddTo(lines, product, size, quantity) == lines[i := l];
      SumUpdate(lines, i, l, LineQuantity);
    case None =>
      AddToCountAppended(lines, product, size, quantity);
  }

  lemma AddToCountAppended(lines: seq<Line>, product: Product, size: string, quantity: int)
    requires FindLine(lines, product.id, size).None?
    ensures Count(AddTo(lines, product, size, quantity)) == Count(lines) + quantity
  {
    var l := NewLine(product, size, quantity);
    assert AddTo(lines, product, size, quantity) == lines + [l];
    SumConcat(lines, [l], LineQuantity);
    assert [l][..0] == [];
  }

  /** The unit price at which `addItem` charges the added quantity: that of
      the existing line when merging (its snapshot, not the product's current
      price), the product's price otherwise. */
  function AddedUnitPrice(lines: seq<Line>, product: Product, size: string): int
  {
    match FindLine(lines, product.id, size)
    case Some(i) => lines[i].price
    case None => product.price
  }

  /** Adding raises the total by the quantity added times its unit price. */
  lemma AddToTotal(lines: seq<Line>, product: Product, size: string, quantity: int)
    ensures Total(AddTo(lines, product, size, quantity))
         == Total(lines) + quantity * AddedUnitPrice(lines, product, size)
  {
    match FindLine(lines, product.id, size)
    case Some(i) =>
      AddToTotalMerged(lines, product, size, quantity, i);
    case None =>
      AddToTotalAppended(lines, product, size, quantity);
  }

  lemma AddToTotalMerged(lines: seq<Line>, product: Product, size: string, quantity: int, i: nat)
    requires FindLine(lines, product.id, size) == Some(i)
    ensures Total(AddTo(lines, product, size, quantity)) == Total(lines) + quantity * lines[i].price
  {
    var l := lines[i].(quantity := lines[i].quantity + quantity);
    assert AddTo(lines, product, size, quantity) == lines[i := l];
    SumUpdate(lines, i, l, LineTotal);
    LineTotalAdd(lines[i], quantity);
  }

  lemma AddToTotalAppended(lines: seq<Line>, product: Product, size: string, quantity: int)
    requires FindLine(lines, product.id, size).None?
    ensures Total(AddTo(lines, product, size, quantity)) == Total(lines) + quantity * product.price
  {
    var l := NewLine(product, size, quantity);
    assert AddTo(lines, product, size, quantity) == lines + [l];
    SumConcat(lines, [l], LineTotal);
    assert [l][..0] == [];
    assert LineTotal(l) == quantity * product.price;
  }

  /** Adding the same (id, size) twice is adding the sum of the quantities
      once: quantities accumulate on a single line. */
  lemma AddToAccumulates(lines: seq<Line>, product: Product, size: string, a: int, b: int)
    ensures AddTo(AddTo(lines, product, size, a), product, size, b) == AddTo(lines, product, size, a + b)
  {
    var once := AddTo(lines, product, size, a);
    match FindLine(lines, product.id, size)
    case Some(i) =>
      assert forall j :: 0 <= j < i ==> once[j] == lines[j];
      FindLineAt(once, product.id, size, i);
    case None =>
      assert forall j :: 0 <= j < |lines| ==> once[j] == lines[j];
      FindLineAt(once, product.id, size, |lines|);
  }

  /** The lines after `removeItem(id, size)`: every line not matching the key,
      in the original order. */
  function Remove(lines: seq<Line>, id: int, size: string): (r: seq<Line>)
    ensures forall i :: 0 <= i < |r| ==> r[i] in lines && !Matches(r[i], id, size)
    ensures forall i :: 0 <= i < |lines| && !Matches(lines[i], id, size) ==> lines[i] in r
  {
    Filter(lines, Other(id, size))
  }

  /** Removal keeps the relative order of the remaining lines. */
  lemma RemoveKeepsOrder(a: seq<Line>, b: seq<Line>, id: int, size: string)
    ensures Remove(a + b, id, size) == Remove(a, id, size) + Remove(b, id, size)
  {
    FilterConcat(a, b, Other(id, size));
  }

  /** Removing a key no line carries changes nothing. */
  lemma RemoveAbsent(lines: seq<Line>, id: int, size: string)
    requires FindLine(lines, id, size).None?
    ensures Remove(lines, id, size) == lines
  {
    FilterKeepsAll(lines, Other(id, size));
  }

  /** Under the invariant, removal deletes exactly the one matching line. */
  lemma RemoveFound(lines: seq<Line>, id: int, size: string, i: nat)
    requires UniqueKeys(lines)
    requires FindLine(lines, id, size) == Some(i)
    ensures Remove(lines, id, size) == lines[..i] + lines[i + 1..]
  {
    FindLineUnique(lines, id, size, i);
    var keep := Other(id, size);
    assert forall j :: 0 <= j < |lines| && j != i ==> keep(lines[j]);
    FilterDropsOne(lines, i, keep);
  }

  /** Under the invariant, removing a line lowers count and total by exactly
      that line's share. */
  lemma RemoveFoundSums(lines: seq<Line>, id: int, size: string, i: nat)
    requires UniqueKeys(lines)
    requires FindLine(lines, id, size) == Some(i)
    ensures Count(Remove(lines, id, size)) == Count(lines) - lines[i].quantity
    ensures Total(Remove(lines, id, size)) == Total(lines) - lines[i].price * lines[i].quantity
  {
    RemoveFound(lines, id, size, i);
    SumDelete(lines, i, LineQuantity);
    SumDelete(lines, i, LineTotal);
  }

  /** Deleting one line keeps at most one line per (id, size). */
  lemma DeleteKeepsKeysUnique(lines: seq<Line>, k: nat)
    requires UniqueKeys(lines)
    requires k < |lines|
    ensures UniqueKeys(lines[..k] + lines[k + 1..])
  {
    var r := lines[..k] + lines[k + 1..];
    forall i, j | 0 <= i < j < |r| ensures !Matches(r[j], r[i].id, r[i].size) {
      var i' := if i < k then i else i + 1;
      var j' := if j < k then j else j + 1;
      assert r[i] == lines[i'];
      assert r[j] == lines[j'];
    }
  }

  /** Removal keeps at most one line per (id, size). */
  lemma RemoveKeepsKeysUnique(lines: seq<Line>, id: int, size: string)
    requires UniqueKeys(lines)
    ensures UniqueKeys(Remove(lines, id, size))
  {
    match FindLine(lines, id, size)
    case None =>
      RemoveAbsent(lines, id, size);
    case Some(k) =>
      RemoveFound(lines, id, size, k);
      DeleteKeepsKeysUnique(lines, k);
  }

  /** The lines after `updateQuantity(id, size, quantity)`. */
  function SetQuantity(lines: seq<Line>, id: int, size: string, quantity: int): (r: seq<Line>)
    ensures FindLine(lines, id, size).None? ==> r == lines
    ensures FindLine(lines, id, size).Some? && quantity > 0 ==>
      var i := FindLine(lines, id, size).value;
      |r| == |lines| && r[i] == lines[i].(quantity := quantity) &&
      forall j :: 0 <= j < |r| && j != i ==> r[j] == lines[j]
  {
    match FindLine(lines, id, size)
    case None => lines
    case Some(i) =>
      if quantity <= 0 then Remove(lines, id, size)
      else lines[i := lines[i].(quantity := quantity)]
  }

  /** A quantity of zero or less is a removal, whether or not the key is in
      the cart. */
  lemma SetQuantityNonPositive(lines: seq<Line>, id: int, size: string, quantity: int)
    requires quantity <= 0
    ensures SetQuantity(lines, id, size, quantity) == Remove(lines, id, size)
  {
    if FindLine(lines, id, size).None? {
      RemoveAbsent(lines, id, size);
    }
  }

  /** A positive quantity replaces the line's quantity, so the count moves by
      the difference. */
  lemma SetQuantityCount(lines: seq<Line>, id: int, size: string, quantity: int, i: nat)
    requires FindLine(lines, id, size) == Some(i)
    requires quantity > 0
    ensures Count(SetQuantity(lines, id, size, quantity)) == Count(lines) - lines[i].quantity + quantity
  {
    SumUpdate(lines, i, lines[i].(quantity := quantity), LineQuantity);
  }

  /** A positive quantity moves the total by the difference in quantity times
      the line's unit price. */
  lemma SetQuantityTotal(lines: seq<Line>, id: int, size: string, quantity: int, i: nat)
    requires FindLine(lines, id, size) == Some(i)
    requires quantity > 0
    ensures Total(SetQuantity(lines, id, size, quantity)) == Total(lines) + lines[i].price * (quantity - lines[i].quantity)
  {
    var l := lines[i].(quantity := quantity);
    assert SetQuantity(lines, id, size, quantity) == lines[i := l];
    SumUpdate(lines, i, l, LineTotal);
    LineTotalWithQuantity(lines[i], quantity);
  }

  /** Setting a quantity keeps at most one line per (id, size). */
  lemma SetQuantityKeepsKeysUnique(lines: seq<Line>, id: int, size: string, quantity: int)
    requires UniqueKeys(lines)
    ensures UniqueKeys(SetQuantity(lines, id, size, quantity))
  {
    if quantity <= 0 {
      SetQuantityNonPositive(lines, id, size, quantity);
      RemoveKeepsKeysUnique(lines, id, size);
    }
  }

  /** `addItem` does not keep quantities at 1 or more: adding 0 creates a line
      of quantity 0, and adding 2 and then -5 leaves a line of quantity -3. */
  lemma AddToAdmitsNonPositive(product: Product, size: string)
    ensures AddTo([], product, size, 0) == [NewLine(product, size, 0)]
    ensures AddTo(AddTo([], product, size, 2), product, size, -5) == [NewLine(product, size, -3)]
  {
    AddToAccumulates([], product, size, 2, -5);
  }

  /** Worked example: two of product 1 at 5000 in size "M", one more of the
      same, then a quantity of 0. */
  lemma ScenarioAddMergeClear(product: Product)
    requires product.id == 1 && product.price == 5000
    ensures var once := AddTo([], product, "M", 2);
      once == [NewLine(product, "M", 2)] && Total(once) == 10000
    ensures var twice := AddTo(AddTo([], product, "M", 2), product, "M", 1);
      twice == [NewLine(product, "M", 3)] && Total(twice) == 15000
    ensures var cleared := SetQuantity(AddTo(AddTo([], product, "M", 2), product, "M", 1), 1, "M", 0);
      cleared == [] && Total(cleared) == 0
  {
    var once := AddTo([], product, "M", 2);
    AddToTotal([], product, "M", 2);
    AddToAccumulates([], product, "M", 2, 1);
    var twice := AddTo(once, product, "M", 1);
    AddToTotal([], product, "M", 3);
    assert twice == [NewLine(product, "M", 3)];
    RemoveFound(twice, 1, "M", 0);
  }

  /** The browser storage slot that holds the serialised cart; None when the
      key has never been written. Serialisation is taken as exact. */
  class Store {
    var slot: Option<seq<Line>>

    constructor(slot: Option<seq<Line>>)
      ensures this.slot == slot
    {
      this.slot := slot;
    }
  }

  /** `loadCart`: the stored lines, or no lines when the slot is empty. */
  function Load(slot: Option<seq<Line>>): (r: seq<Line>)
    ensures slot.None? ==> r == []
    ensures forall lines :: slot == Some(lines) ==> r == lines
  {
    match slot
    case None => []
    case Some(lines) => lines
  }

  class Cart {
    const store: Store
    var items: seq<Line>

    /** A new cart starts from whatever the storage slot holds. */
    constructor(store: Store)
      ensures this.store == store
      ensures items == Load(store.slot)
      ensures store.slot.None? ==> items == []
    {
      this.store := store;
      items := Load(store.slot);
    }

    /** The cart's invariant: at most one line per (id, size). A cart loaded
        from storage is not checked, so it holds only if the stored lines
        satisfy it; every operation below keeps it. */
    ghost predicate Valid()
      reads this
    {
      UniqueKeys(items)
    }

    /** `saveCart`: the slot now holds exactly the in-memory lines. */
    method SaveCart()
      modifies store
      ensures store.slot == Some(items)
    {
      store.slot := Some(items);
    }

    /** `getTotal`: zero for an empty cart, never negative while prices and
        quantities are not. */
    function GetTotal(): (t: int)
      reads this
      ensures items == [] ==> t == 0
      ensures (forall i :: 0 <= i < |items| ==> items[i].price >= 0 && items[i].quantity >= 0) ==> t >= 0
    {
      Total(items)
    }

    /** `getCount`: zero for an empty cart, and at least the number of lines
        while every quantity is at least 1. */
    function GetCount(): (n: int)
      reads this
      ensures items == [] ==> n == 0
      ensures (forall i :: 0 <= i < |items| ==> items[i].quantity >= 1) ==> n >= |items|
    {
      Count(items)
    }

    method AddItem(product: Product, size: string, quantity: int := 1)
      modifies this, store
      ensures items == AddTo(old(items), product, size, quantity)
      ensures store.slot == Some(items)
      ensures GetCount() == old(GetCount()) + quantity
      ensures old(Valid()) ==> Valid()
    {
      var found := FindLine(items, product.id, size);
      match found {
        case Some(i) =>
          items := items[i := items[i].(quantity := items[i].quantity + quantity)];
        case None =>
          items := items + [NewLine(product, size, quantity)];
      }
      SaveCart();
      AddToCount(old(items), product, size, quantity);
      if old(Valid()) {
        AddToKeepsKeysUnique(old(items), product, size, quantity);
      }
    }

    method RemoveItem(productId: int, size: string)
      modifies this, store
      ensures items == Remove(old(items), productId, size)
      ensures store.slot == Some(items)
      ensures old(Valid()) ==> Valid()
      ensures old(Valid()) && FindLine(old(items), productId, size).Some? ==>
        var i := FindLine(old(items), productId, size).value;
        items == old(items)[..i] + old(items)[i + 1..] &&
        GetCount() == old(GetCount()) - old(items)[i].quantity &&
        GetTotal() == old(GetTotal()) - old(items)[i].price * old(items)[i].quantity
    {
      items := Remove(items, productId, size);
      SaveCart();
      if old(Valid()) {
        RemoveKeepsKeysUnique(old(items), productId, size);
        match FindLine(old(items), productId, size)
        case Some(i) =>
          RemoveFound(old(items), productId, size, i);
          RemoveFoundSums(old(items), productId, size, i);
        case None =>
      }
    }

    /** Only a matching line triggers a change and a save; a quantity of zero
        or less removes it. */
    method UpdateQuantity(productId: int, size: string, quantity: int)
      modifies this, store
      ensures items == SetQuantity(old(items), productId, size, quantity)
      ensures FindLine(old(items), productId, size).Some? ==> store.slot == Some(items)
      ensures FindLine(old(items), productId, size).None? ==> store.slot == old(store.slot)
      ensures old(Valid()) ==> Valid()
      ensures FindLine(old(items), productId, size).Some? && quantity > 0 ==>
        GetCount() == old(GetCount()) - old(items)[FindLine(old(items), productId, size).value].quantity + quantity
      ensures old(Valid()) && FindLine(old(items), productId, size).Some? && quantity <= 0 ==>
        var i := FindLine(old(items), productId, size).value;
        items == old(items)[..i] + old(items)[i + 1..]
    {
      var found := FindLine(items, productId, size);
      if found.Some? {
        if quantity <= 0 {
          RemoveItem(productId, size);
        } else {
          var i := found.value;
          items := items[i := items[i].(quantity := quantity)];
        }
        SaveCart();
      }
      match FindLine(old(items), productId, size)
      case Some(i) =>
        if quantity > 0 {
          SetQuantityCount(old(items), productId, size, quantity, i);
        } else if old(Valid()) {
          SetQuantityNonPositive(old(items), productId, size, quantity);
          RemoveFound(old(items), productId, size, i);
        }
      case None =>
      if old(Valid()) {
        SetQuantityKeepsKeysUnique(old(items), productId, size, quantity);
      }
    }

    method Clear()
      modifies this, store
      ensures items == []
      ensures store.slot == Some([])
      ensures GetTotal() == 0 && GetCount() == 0
      ensures Valid()
    {
      items := [];
      SaveCart();
    }
  }

  /** A cart built over a slot that was just saved holds the same lines, in
      the same order, as the cart that saved them. */
  method Reload(saved: Cart) returns (reloaded: Cart)
    requires saved.store.slot == Some(saved.items)
    ensures reloaded.store == saved.store
    ensures reloaded.items == saved.items
  {
    reloaded := new Cart(saved.store);
  }
}

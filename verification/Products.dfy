/** The product service over its repository: unique SKUs, kept by every serial run of calls. */
module Products {
  import opened Basics
  import opened Text
  import opened Pipeline

  datatype Product = Product(
    id: Uuid, name: string, sku: string, price: Int64, active: bool, createdAt: int, updatedAt: int)

  datatype ProductInput = ProductInput(name: string, sku: string, price: Int64)

  datatype ProductError = NameRequired | SkuRequired | PriceNotPositive | DuplicateSku | NoSuchProduct | StoreFailed

  // ---- The stored products ----

  /** No two products share a SKU (BR-PRD-002). */
  ghost predicate UniqueSkus(items: map<Uuid, Product>) {
    forall a, b :: a in items && b in items && items[a].sku == items[b].sku ==> a == b
  }

  /** A product as the service stores it: named, with a trimmed SKU and a positive price, under its own id. */
  predicate Sound(id: Uuid, p: Product) {
    id != NIL_UUID && p.id == id && Tight(p.name) && Tight(p.sku) && p.price > 0
  }

  ghost predicate IsCatalog(items: map<Uuid, Product>) {
    (forall id :: id in items ==> Sound(id, items[id])) && UniqueSkus(items)
  }

  /** A product other than the given one has the SKU. */
  ghost predicate Taken(items: map<Uuid, Product>, sku: string, exclude: Uuid) {
    exists id :: id in items && id != exclude && items[id].sku == sku
  }

  // ---- What each call does, always checking the SKU ----

  /** How the look-ups and the write of a call end. */
  datatype Endings = Endings(find: Outcome, check: Outcome, write: Outcome)

  datatype Call =
    | Create(input: ProductInput, newId: Uuid, now: int, fates: Endings)
    | Update(id: Uuid, input: ProductInput, now: int, fates: Endings)
    | Deactivate(id: Uuid, fates: Endings)

  /** What is wrong with the input itself, if anything (BR-PRD-001, BR-PRD-003). */
  function Flaw(input: ProductInput): Option<ProductError> {
    if TrimSpace(input.name) == "" then Some(NameRequired)
    else if TrimSpace(input.sku) == "" then Some(SkuRequired)
    else if input.price <= 0 then Some(PriceNotPositive)
    else None
  }

  function Registered(input: ProductInput, id: Uuid, now: int): Product {
    Product(id, TrimSpace(input.name), TrimSpace(input.sku), input.price, true, now, now)
  }

  function Edited(p: Product, input: ProductInput, now: int): Product {
    p.(name := TrimSpace(input.name), sku := TrimSpace(input.sku), price := input.price, updatedAt := now)
  }

  /** The answer of a call when every repository call works. */
  ghost function Verdict(items: map<Uuid, Product>, c: Call): Option<ProductError> {
    match c
    case Create(input, newId, now, _) =>
      if Flaw(input) != None then Flaw(input)
      else if Taken(items, TrimSpace(input.sku), NIL_UUID) then Some(DuplicateSku)
      else None
    case Update(id, input, now, _) =>
      if id !in items then Some(NoSuchProduct)
      else if Flaw(input) != None then Flaw(input)
      else if Taken(items, TrimSpace(input.sku), id) then Some(DuplicateSku)
      else None
    case Deactivate(id, _) =>
      if id !in items then Some(NoSuchProduct) else None
  }

  /** The stored products after a call that is carried out. */
  function Written(items: map<Uuid, Product>, c: Call): map<Uuid, Product> {
    match c
    case Create(input, newId, now, _) => items[newId := Registered(input, newId, now)]
    case Update(id, input, now, _) => if id in items then items[id := Edited(items[id], input, now)] else items
    case Deactivate(id, _) => if id in items then items[id := items[id].(active := false)] else items
  }

  /** The SKU is left as it is, so that Update does not look it up. */
  predicate KeepsSku(items: map<Uuid, Product>, c: Call) {
    c.Update? && c.id in items && items[c.id].sku == TrimSpace(c.input.sku)
  }

  /** A look-up that the call makes before its write goes wrong. */
  predicate LookupFails(items: map<Uuid, Product>, c: Call) {
    match c
    case Create(input, _, _, fates) => Flaw(input) == None && fates.check != Done
    case Update(id, input, _, fates) =>
      fates.find != Done || (id in items && Flaw(input) == None && !KeepsSku(items, c) && fates.check != Done)
    case Deactivate(_, _) => false
  }

  /** The answer of a call. */
  ghost function Answer(items: map<Uuid, Product>, c: Call): Option<ProductError> {
    if LookupFails(items, c) then Some(StoreFailed)
    else if Verdict(items, c) != None && (c.Deactivate? ==> c.fates.write == Done) then Verdict(items, c)
    else if c.fates.write != Done then Some(StoreFailed)
    else None
  }

  /** The stored products after a call. */
  ghost function Next(items: map<Uuid, Product>, c: Call): map<Uuid, Product> {
    if LookupFails(items, c) || Verdict(items, c) != None || c.fates.write == CleanError then items
    else Written(items, c)
  }

  /** What makes an input unfit, spelled out. */
  lemma FlawIff(input: ProductInput)
    ensures Flaw(input) == None <==> TrimSpace(input.name) != "" && TrimSpace(input.sku) != "" && input.price >= 1
    ensures Flaw(input) == Some(NameRequired) <==> TrimSpace(input.name) == ""
    ensures Flaw(input) == Some(SkuRequired) <==> TrimSpace(input.name) != "" && TrimSpace(input.sku) == ""
    ensures Flaw(input) == Some(PriceNotPositive) <==>
      TrimSpace(input.name) != "" && TrimSpace(input.sku) != "" && input.price <= 0
  {
  }

  /** A name of nothing but blanks, tabs and line ends is no name. */
  lemma BlankNameIsRefused(input: ProductInput)
    requires forall k :: 0 <= k < |input.name| ==>
      input.name[k] == ' ' || input.name[k] == '\t' || input.name[k] == '\n' || input.name[k] == '\r'
    ensures Flaw(input) == Some(NameRequired)
  {
    PlainSpacesAreBlank(input.name);
    BlankTrimsAway(input.name);
  }

  // ---- The invariant, over every serial run ----

  /** Create gets a fresh, non-nil id. */
  predicate Supplied(items: map<Uuid, Product>, c: Call) {
    c.Create? ==> c.newId != NIL_UUID && c.newId !in items
  }

  /** A product with its own SKU is never found to be taken by another: the skipped check would have passed. */
  lemma SkippedCheckWouldPass(items: map<Uuid, Product>, id: Uuid)
    requires IsCatalog(items) && id in items
    ensures !Taken(items, items[id].sku, id)
  {
  }

  /** Writing a sound product whose SKU no other has keeps the catalog. */
  lemma WriteKeepsCatalog(items: map<Uuid, Product>, id: Uuid, p: Product)
    requires IsCatalog(items) && Sound(id, p) && !Taken(items, p.sku, id)
    ensures IsCatalog(items[id := p])
  {
  }

  lemma FlawlessIsTight(input: ProductInput)
    requires Flaw(input) == None
    ensures Tight(TrimSpace(input.name)) && Tight(TrimSpace(input.sku))
  {
    TrimSpaceIsTight(input.name);
    TrimSpaceIsTight(input.sku);
  }

  lemma CallKeepsCatalog(items: map<Uuid, Product>, c: Call)
    requires IsCatalog(items) && Supplied(items, c)
    ensures IsCatalog(Next(items, c))
  {
    if Next(items, c) != items {
      match c
      case Create(input, newId, now, _) =>
        FlawlessIsTight(input);
        WriteKeepsCatalog(items, newId, Registered(input, newId, now));
      case Update(id, input, now, _) =>
        FlawlessIsTight(input);
        WriteKeepsCatalog(items, id, Edited(items[id], input, now));
      case Deactivate(id, _) =>
        SkippedCheckWouldPass(items, id);
        WriteKeepsCatalog(items, id, items[id].(active := false));
    }
  }

  ghost function After(items: map<Uuid, Product>, calls: seq<Call>): map<Uuid, Product>
    decreases |calls|
  {
    if calls == [] then items else After(Next(items, calls[0]), calls[1..])
  }

  ghost predicate AllSupplied(items: map<Uuid, Product>, calls: seq<Call>)
    decreases |calls|
  {
    calls == [] || (Supplied(items, calls[0]) && AllSupplied(Next(items, calls[0]), calls[1..]))
  }

  /** Every serial run of calls, with whatever repository failures, leaves a catalog. */
  lemma {:induction false} RunKeepsCatalog(items: map<Uuid, Product>, calls: seq<Call>)
    requires IsCatalog(items) && AllSupplied(items, calls)
    ensures IsCatalog(After(items, calls))
    ensures var items' := After(items, calls);
      && (forall id :: id in items' ==> id != NIL_UUID && items'[id].price > 0 && items'[id].sku != "")
      && (forall id, other :: id in items' && other in items' && id != other ==> items'[id].sku != items'[other].sku)
    decreases |calls|
  {
    if calls == [] {
    } else {
      CallKeepsCatalog(items, calls[0]);
      RunKeepsCatalog(Next(items, calls[0]), calls[1..]);
    }
  }

  /** A product stays stored under its id for good, and once deactivated it stays so. */
  lemma {:induction false} DeactivatedForGood(items: map<Uuid, Product>, calls: seq<Call>, id: Uuid)
    requires AllSupplied(items, calls) && id in items
    ensures id in After(items, calls)
    ensures !items[id].active ==> !After(items, calls)[id].active
    ensures After(items, calls)[id].createdAt == items[id].createdAt
    decreases |calls|
  {
    if calls == [] {
    } else {
      DeactivatedForGood(Next(items, calls[0]), calls[1..], id);
    }
  }

  /** A stored SKU is refused to every later Create, however the input pads it. */
  lemma PaddedSkuIsRefused(items: map<Uuid, Product>, id: Uuid, left: string, right: string, c: Call)
    requires IsCatalog(items) && id in items && Blank(left) && Blank(right)
    requires c.Create? && c.input.sku == left + items[id].sku + right
    ensures Next(items, c) == items && Answer(items, c) != None
    ensures Flaw(c.input) == None && !LookupFails(items, c) ==> Answer(items, c) == Some(DuplicateSku)
  {
    TrimPadding(left, items[id].sku, right);
  }

  // ---- Racing calls: the check is one step, the write another ----

  /**
   * A write that comes later finds another store than its check did. It keeps the catalog if and
   * only if the SKU is still free when it lands.
   */
  lemma LateWriteIsSafeIff(items: map<Uuid, Product>, p: Product)
    requires IsCatalog(items) && Sound(p.id, p)
    ensures IsCatalog(items[p.id := p]) <==> !Taken(items, p.sku, p.id)
  {
    var items' := items[p.id := p];
    if Taken(items, p.sku, p.id) {
      var id :| id in items && id != p.id && items[id].sku == p.sku;
      assert items'[id].sku == items'[p.id].sku;
    } else {
      WriteKeepsCatalog(items, p.id, p);
    }
  }

  /** No deactivated product is active again. */
  ghost predicate StayInactive(items: map<Uuid, Product>, items': map<Uuid, Product>) {
    forall id :: id in items && !items[id].active ==> id in items' && !items'[id].active
  }

  /** A late Update undoes a deactivation if and only if it loaded the product active and finds it inactive. */
  lemma LateUpdateRevivesIff(items: map<Uuid, Product>, loaded: Product, input: ProductInput, now: int)
    ensures !StayInactive(items, items[loaded.id := Edited(loaded, input, now)])
       <==> loaded.active && loaded.id in items && !items[loaded.id].active
  {
    var items' := items[loaded.id := Edited(loaded, input, now)];
    if loaded.active && loaded.id in items && !items[loaded.id].active {
      assert items'[loaded.id].active;
    }
  }

  /** Two Creates that both check before either writes store the same SKU twice. */
  lemma RacingCreatesCollide(items: map<Uuid, Product>, a: Call, b: Call)
    requires IsCatalog(items) && a.Create? && b.Create? && Supplied(items, a) && Supplied(items, b)
    requires a.newId != b.newId && TrimSpace(a.input.sku) == TrimSpace(b.input.sku)
    requires Verdict(items, a) == None && Verdict(items, b) == None
    ensures IsCatalog(Written(items, a)) && !IsCatalog(Written(Written(items, a), b))
  {
    FlawlessIsTight(a.input);
    FlawlessIsTight(b.input);
    var p, q := Registered(a.input, a.newId, a.now), Registered(b.input, b.newId, b.now);
    LateWriteIsSafeIff(items, p);
    LateWriteIsSafeIff(items[p.id := p], q);
    assert p.id in items[p.id := p] && items[p.id := p][p.id].sku == q.sku;
  }

  // ---- The service and its repository ----

  class ProductService {
    var items: map<Uuid, Product>

    constructor ()
      ensures items == map[] && IsCatalog(items)
    {
      items := map[];
    }

    /** Look for the SKU in whatever order the map is walked: there is only one answer. */
    method FindBySKU(sku: string) returns (found: Option<Product>)
      requires IsCatalog(items)
      ensures forall id :: id in items && items[id].sku == sku ==> found == Some(items[id])
      ensures found.Some? ==> found.value.sku == sku && exists id :: id in items && items[id] == found.value
    {
      var left := items.Keys;
      while left != {}
        invariant left <= items.Keys
        invariant forall id :: id in items && id !in left ==> items[id].sku != sku
        decreases left
      {
        var id :| id in left;
        left := left - {id};
        if items[id].sku == sku {
          return Some(items[id]);
        }
      }
      return None;
    }

    method EnsureSKUUnique(sku: string, exclude: Uuid, fate: Outcome) returns (err: Option<ProductError>)
      requires IsCatalog(items)
      ensures err == if fate != Done then Some(StoreFailed)
                     else if Taken(items, sku, exclude) then Some(DuplicateSku)
                     else None
      ensures err == None <==> fate == Done && forall id :: id in items && items[id].sku == sku ==> id == exclude
    {
      if fate != Done {
        return Some(StoreFailed);
      }
      var existing := FindBySKU(sku);
      if existing.Some? && existing.value.id != exclude {
        return Some(DuplicateSku);
      }
      return None;
    }

    method Create(input: ProductInput, newId: Uuid, now: int, fates: Endings) returns (err: Option<ProductError>)
      requires IsCatalog(items) && newId != NIL_UUID && newId !in items
      modifies this
      ensures var c := Call.Create(input, newId, now, fates);
        err == Answer(old(items), c) && items == Next(old(items), c)
      ensures var was := old(items);
              var name, sku := TrimSpace(input.name), TrimSpace(input.sku);
              var free := forall id :: id in was ==> was[id].sku != sku;
              var passes := name != "" && sku != "" && input.price > 0 && fates.check == Done && free;
        && err == (if name == "" then Some(NameRequired)
                   else if sku == "" then Some(SkuRequired)
                   else if input.price <= 0 then Some(PriceNotPositive)
                   else if fates.check != Done then Some(StoreFailed)
                   else if !free then Some(DuplicateSku)
                   else if fates.write != Done then Some(StoreFailed)
                   else None)
        && items == (if passes && fates.write != CleanError
                     then was[newId := Product(newId, name, sku, input.price, true, now, now)] else was)
      ensures IsCatalog(items)
    {
      CallKeepsCatalog(items, Call.Create(input, newId, now, fates));
      var name := TrimSpace(input.name);
      if name == "" {
        return Some(NameRequired);
      }
      var sku := TrimSpace(input.sku);
      if sku == "" {
        return Some(SkuRequired);
      }
      if input.price <= 0 {
        return Some(PriceNotPositive);
      }
      err := EnsureSKUUnique(sku, NIL_UUID, fates.check);
      if err != None {
        return;
      }
      if fates.write != CleanError {
        items := items[newId := Product(newId, name, sku, input.price, true, now, now)];
      }
      return if fates.write == Done then None else Some(StoreFailed);
    }

    method Update(id: Uuid, input: ProductInput, now: int, fates: Endings) returns (err: Option<ProductError>)
      requires IsCatalog(items)
      modifies this
      ensures var c := Call.Update(id, input, now, fates);
        err == Answer(old(items), c) && items == Next(old(items), c)
      ensures var was := old(items);
              var name, sku := TrimSpace(input.name), TrimSpace(input.sku);
              var free := forall other :: other in was && other != id ==> was[other].sku != sku;
              var passes := fates.find == Done && id in was && name != "" && sku != "" && input.price > 0
                            && (was[id].sku == sku || fates.check == Done) && free;
        && err == (if fates.find != Done then Some(StoreFailed)
                   else if id !in was then Some(NoSuchProduct)
                   else if name == "" then Some(NameRequired)
                   else if sku == "" then Some(SkuRequired)
                   else if input.price <= 0 then Some(PriceNotPositive)
                   else if was[id].sku != sku && fates.check != Done then Some(StoreFailed)
                   else if !free then Some(DuplicateSku)
                   else if fates.write != Done then Some(StoreFailed)
                   else None)
        && items == (if passes && fates.write != CleanError
                     then was[id := Product(id, name, sku, input.price, was[id].active, was[id].createdAt, now)]
                     else was)
      ensures IsCatalog(items)
    {
      CallKeepsCatalog(items, Call.Update(id, input, now, fates));
      if fates.find != Done {
        return Some(StoreFailed);
      }
      if id !in items {
        return Some(NoSuchProduct);
      }
      var existing := items[id];
      var name := TrimSpace(input.name);
      if name == "" {
        return Some(NameRequired);
      }
      var sku := TrimSpace(input.sku);
      if sku == "" {
        return Some(SkuRequired);
      }
      if input.price <= 0 {
        return Some(PriceNotPositive);
      }
      if sku != existing.sku {
        err := EnsureSKUUnique(sku, id, fates.check);
        if err != None {
          return;
        }
      } else {
        SkippedCheckWouldPass(items, id);
      }
      existing := existing.(name := name, sku := sku, price := input.price, updatedAt := now);
      if fates.write != CleanError {
        items := items[id := existing];
      }
      return if fates.write == Done then None else Some(StoreFailed);
    }

    method Deactivate(id: Uuid, fates: Endings) returns (err: Option<ProductError>)
      requires IsCatalog(items)
      modifies this
      ensures var c := Call.Deactivate(id, fates);
        err == Answer(old(items), c) && items == Next(old(items), c)
      ensures var was := old(items);
        && (err == None <==> fates.write == Done && id in was)
        && (fates.write == Done && id !in was ==> err == Some(NoSuchProduct))
        && (fates.write != CleanError && id in was ==>
              id in items && !items[id].active && items == was[id := was[id].(active := false)])
        && (fates.write == CleanError || id !in was ==> items == was)
      ensures IsCatalog(items)
    {
      CallKeepsCatalog(items, Call.Deactivate(id, fates));
      if fates.write == CleanError {
        return Some(StoreFailed);
      }
      if id !in items {
        return if fates.write == Done then Some(NoSuchProduct) else Some(StoreFailed);
      }
      items := items[id := items[id].(active := false)];
      return if fates.write == Done then None else Some(StoreFailed);
    }
  }
}

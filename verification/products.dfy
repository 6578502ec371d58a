/**
 The decision logic inside the record tools of core.py, over an abstract
 product table. The table is a sequence whose order stands for nothing: the
 database returns rows in no promised order, so listings are specified by
 their contents (a multiset) and "the first matching row" by "some matching
 row".
 */
module Products {
  import opened ApiModels

  /** A `Producto` row without its generated id. Prices and discounts are
      floats that the tools store and return but never compute with. */
  datatype Product = Product(nombre: string, precio: real, cantidadEnAlmacen: int, descuentoPorDevolucion: real)

  // ---------------------------------------------------------------------------
  // get_all_products

  /** Case folding of the letters A-Z. */
  function LowerChar(c: char): char {
    if 'A' <= c <= 'Z' then (c as int + 32) as char else c
  }

  function Lower(s: string): (r: string)
    ensures |r| == |s|
    ensures forall i :: 0 <= i < |s| ==> r[i] == LowerChar(s[i])
  {
    seq(|s|, i requires 0 <= i < |s| => LowerChar(s[i]))
  }

  /** `needle` occurs in `hay` at position `i`. */
  predicate OccursAt(hay: string, needle: string, i: int) {
    0 <= i && i + |needle| <= |hay| && hay[i..i + |needle|] == needle
  }

  /** Substring search, scanning start positions left to right. */
  function Contains(hay: string, needle: string): (b: bool)
    ensures b <==> exists i :: OccursAt(hay, needle, i)
    decreases |hay|
  {
    if |needle| > |hay| then
      assert forall i :: !OccursAt(hay, needle, i);
      false
    else if hay[..|needle|] == needle then
      assert OccursAt(hay, needle, 0);
      true
    else
      var b := Contains(hay[1..], needle);
      assert forall i :: 1 <= i ==> (OccursAt(hay, needle, i) <==> OccursAt(hay[1..], needle, i - 1));
      assert !OccursAt(hay, needle, 0);
      if b then
        var i :| OccursAt(hay[1..], needle, i);
        assert OccursAt(hay, needle, i + 1);
        true
      else
        false
  }

  /** The row filter: no filter keeps every row; a filter keeps the rows whose
      name contains it, ignoring case (`ilike '%filter%'`). */
  predicate Matches(p: Product, filter: Option<string>) {
    filter.None? || Contains(Lower(p.nombre), Lower(filter.value))
  }

  /** The rows the query selects. */
  function Select(t: seq<Product>, filter: Option<string>): (rs: seq<Product>)
    ensures forall p :: multiset(rs)[p] == if Matches(p, filter) then multiset(t)[p] else 0
    decreases |t|
  {
    if |t| == 0 then []
    else
      assert t == [t[0]] + t[1..];
      (if Matches(t[0], filter) then [t[0]] else []) + Select(t[1..], filter)
  }

  /** What `get_all_products` returns: the selected rows, or a sentence when there are none. */
  datatype Listing = Rows(products: seq<Product>) | NoProducts(text: string)

  const NoProductsText: string := "No products found in the database."

  function GetAllProducts(t: seq<Product>, filter: Option<string>): (r: Listing)
    ensures r.NoProducts? <==> forall i :: 0 <= i < |t| ==> !Matches(t[i], filter)
    ensures r.NoProducts? ==> r.text == NoProductsText
    ensures r.Rows? ==> forall p :: multiset(r.products)[p] == if Matches(p, filter) then multiset(t)[p] else 0
  {
    var rs := Select(t, filter);
    if |rs| == 0 then
      assert forall i :: 0 <= i < |t| ==> !Matches(t[i], filter) by {
        forall i | 0 <= i < |t|
          ensures !Matches(t[i], filter)
        {
          assert t[i] in multiset(t);
        }
      }
      NoProducts(NoProductsText)
    else
      assert exists i :: 0 <= i < |t| && Matches(t[i], filter) by {
        assert rs[0] in multiset(rs);
        assert rs[0] in t;
      }
      Rows(rs)
  }

  /** Without a filter every product is listed. */
  lemma ListWithoutFilterIsWholeTable(t: seq<Product>)
    requires |t| > 0
    ensures GetAllProducts(t, None) == Rows(t)
  {
    SelectNothingFiltered(t);
  }

  lemma {:induction false} SelectNothingFiltered(t: seq<Product>)
    ensures Select(t, None) == t
    decreases |t|
  {
    if |t| > 0 {
      SelectNothingFiltered(t[1..]);
      assert t == [t[0]] + t[1..];
    }
  }

  /** The empty filter, `ilike '%%'`, matches every name: it lists what no filter lists. */
  lemma EmptyFilterListsAll(t: seq<Product>)
    ensures GetAllProducts(t, Some("")) == GetAllProducts(t, None)
  {
    SelectEmptyFilter(t);
    SelectNothingFiltered(t);
  }

  lemma {:induction false} SelectEmptyFilter(t: seq<Product>)
    ensures Select(t, Some("")) == Select(t, None)
    decreases |t|
  {
    if |t| > 0 {
      assert OccursAt(Lower(t[0].nombre), Lower(""), 0);
      SelectEmptyFilter(t[1..]);
    }
  }

  /** Two filters that differ only in the case of letters select the same rows. */
  lemma FilterIgnoresCase(t: seq<Product>, f: string, g: string)
    requires Lower(f) == Lower(g)
    ensures GetAllProducts(t, Some(f)) == GetAllProducts(t, Some(g))
  {
    SelectSameFold(t, f, g);
  }

  lemma {:induction false} SelectSameFold(t: seq<Product>, f: string, g: string)
    requires Lower(f) == Lower(g)
    ensures Select(t, Some(f)) == Select(t, Some(g))
    decreases |t|
  {
    if |t| > 0 {
      SelectSameFold(t[1..], f, g);
    }
  }

  // ---------------------------------------------------------------------------
  // insert_a_product

  /** The parameter names in the order the tool checks them. */
  const ParamOrder: seq<string> := ["nombre", "precio", "cantidad_en_almacen", "descuento_por_devolucion"]

  /** The position of a parameter name in `ParamOrder`. */
  function Rank(name: string): int {
    if name == ParamOrder[0] then 0
    else if name == ParamOrder[1] then 1
    else if name == ParamOrder[2] then 2
    else 3
  }

  /** The names of the parameters left at `None`, each once, in the order of `ParamOrder`. */
  function MissingParams(nombre: Option<string>, precio: Option<real>, cantidad: Option<int>, descuento: Option<real>): (ps: seq<string>)
    ensures ParamOrder[0] in ps <==> nombre.None?
    ensures ParamOrder[1] in ps <==> precio.None?
    ensures ParamOrder[2] in ps <==> cantidad.None?
    ensures ParamOrder[3] in ps <==> descuento.None?
    ensures forall j :: 0 <= j < |ps| ==> ps[j] in ParamOrder
    ensures forall j, l :: 0 <= j < l < |ps| ==> Rank(ps[j]) < Rank(ps[l])
  {
    (if nombre.None? then [ParamOrder[0]] else [])
    + (if precio.None? then [ParamOrder[1]] else [])
    + (if cantidad.None? then [ParamOrder[2]] else [])
    + (if descuento.None? then [ParamOrder[3]] else [])
  }

  /** `', '.join(parts)`. */
  function Join(sep: string, parts: seq<string>): (r: string)
    decreases |parts|
  {
    if |parts| == 0 then ""
    else if |parts| == 1 then parts[0]
    else parts[0] + sep + Join(sep, parts[1..])
  }

  function MissingParamsText(missing: seq<string>): string {
    "No puedo insertar el producto hasta que me proporciones los siguientes parámetros: " + Join(", ", missing) + "."
  }

  /** `insert_a_product`: with a parameter missing the table is untouched and
      the missing names are reported; otherwise exactly one row is added. */
  function InsertAProduct(t: seq<Product>, nombre: Option<string>, precio: Option<real>, cantidad: Option<int>, descuento: Option<real>): (r: (seq<Product>, string))
    ensures var missing := MissingParams(nombre, precio, cantidad, descuento);
      && (|missing| > 0 <==> nombre.None? || precio.None? || cantidad.None? || descuento.None?)
      && (|missing| > 0 ==> r == (t, MissingParamsText(missing)))
      && (|missing| == 0 ==>
            && r.0 == t + [Product(nombre.value, precio.value, cantidad.value, descuento.value)]
            && r.1 == "Done! The product " + nombre.value + " was inserted.")
  {
    var missing := MissingParams(nombre, precio, cantidad, descuento);
    if |missing| > 0 then (t, MissingParamsText(missing))
    else (t + [Product(nombre.value, precio.value, cantidad.value, descuento.value)], "Done! The product " + nombre.value + " was inserted.")
  }

  // ---------------------------------------------------------------------------
  // delete_a_product and update_a_product

  /** A row whose name equals `nombre` exactly (case-sensitive), if any. */
  function FindByName(t: seq<Product>, nombre: string): (r: Option<nat>)
    ensures r.None? <==> forall i :: 0 <= i < |t| ==> t[i].nombre != nombre
    ensures r.Some? ==> r.value < |t| && t[r.value].nombre == nombre
    decreases |t|
  {
    if |t| == 0 then None
    else if t[0].nombre == nombre then Some(0)
    else
      match FindByName(t[1..], nombre)
      case None =>
        assert forall i :: 1 <= i < |t| ==> t[i] == t[1..][i - 1];
        None
      case Some(i) => Some(i + 1)
  }

  predicate HasNamed(t: seq<Product>, nombre: string) {
    exists i :: 0 <= i < |t| && t[i].nombre == nombre
  }

  function NotFoundText(nombre: string): string {
    "Product " + nombre + " not found in the database."
  }

  /** `delete_a_product`: removes one row with exactly this name, or reports that there is none. */
  function DeleteAProduct(t: seq<Product>, nombre: string): (r: (seq<Product>, string))
    ensures !HasNamed(t, nombre) ==> r == (t, NotFoundText(nombre))
    ensures HasNamed(t, nombre) ==>
              && (exists i :: 0 <= i < |t| && t[i].nombre == nombre && r.0 == t[..i] + t[i + 1..])
              && r.1 == "Done! The product " + nombre + " was deleted from the database."
  {
    match FindByName(t, nombre)
    case None => (t, NotFoundText(nombre))
    case Some(i) => (t[..i] + t[i + 1..], "Done! The product " + nombre + " was deleted from the database.")
  }

  /** The optional new values `update_a_product` takes. */
  datatype Changes = Changes(
    nuevoNombre: Option<string>,
    nuevoPrecio: Option<real>,
    nuevaCantidad: Option<int>,
    nuevoDescuento: Option<real>)

  const NoChanges: Changes := Changes(None, None, None, None)

  /** Each field takes the new value when one is given and keeps the old one otherwise. */
  function Merge(p: Product, c: Changes): (q: Product)
    ensures c.nuevoNombre.Some? ==> q.nombre == c.nuevoNombre.value
    ensures c.nuevoNombre.None? ==> q.nombre == p.nombre
    ensures c.nuevoPrecio.Some? ==> q.precio == c.nuevoPrecio.value
    ensures c.nuevoPrecio.None? ==> q.precio == p.precio
    ensures c.nuevaCantidad.Some? ==> q.cantidadEnAlmacen == c.nuevaCantidad.value
    ensures c.nuevaCantidad.None? ==> q.cantidadEnAlmacen == p.cantidadEnAlmacen
    ensures c.nuevoDescuento.Some? ==> q.descuentoPorDevolucion == c.nuevoDescuento.value
    ensures c.nuevoDescuento.None? ==> q.descuentoPorDevolucion == p.descuentoPorDevolucion
  {
    Product(
      c.nuevoNombre.GetOr(p.nombre),
      c.nuevoPrecio.GetOr(p.precio),
      c.nuevaCantidad.GetOr(p.cantidadEnAlmacen),
      c.nuevoDescuento.GetOr(p.descuentoPorDevolucion))
  }

  /** `update_a_product`: merges the changes into one row with exactly this
      name and leaves every other row alone, or reports that there is none. */
  function UpdateAProduct(t: seq<Product>, nombre: string, c: Changes): (r: (seq<Product>, string))
    ensures !HasNamed(t, nombre) ==> r == (t, NotFoundText(nombre))
    ensures HasNamed(t, nombre) ==>
              && |r.0| == |t|
              && (exists i :: 0 <= i < |t| && t[i].nombre == nombre && r.0 == t[i := Merge(t[i], c)])
              && r.1 == "Done! The product " + nombre + " was updated in the database."
  {
    match FindByName(t, nombre)
    case None => (t, NotFoundText(nombre))
    case Some(i) => (t[i := Merge(t[i], c)], "Done! The product " + nombre + " was updated in the database.")
  }

  /** An update that changes no field leaves the row as it was. */
  lemma MergeNothingIsIdentity(p: Product)
    ensures Merge(p, NoChanges) == p
  {
  }

  /** Applying the same changes twice is applying them once. */
  lemma MergeIdempotent(p: Product, c: Changes)
    ensures Merge(Merge(p, c), c) == Merge(p, c)
  {
  }

  /** Inserting a product whose name is new and then deleting that name gives back the table. */
  lemma InsertThenDeleteRoundTrip(t: seq<Product>, nombre: string, precio: real, cantidad: int, descuento: real)
    requires !HasNamed(t, nombre)
    ensures var inserted := InsertAProduct(t, Some(nombre), Some(precio), Some(cantidad), Some(descuento)).0;
            DeleteAProduct(inserted, nombre).0 == t
  {
    var p := Product(nombre, precio, cantidad, descuento);
    var inserted := t + [p];
    assert inserted[|t|].nombre == nombre;
    var r := DeleteAProduct(inserted, nombre).0;
    var i :| 0 <= i < |inserted| && inserted[i].nombre == nombre && r == inserted[..i] + inserted[i + 1..];
    assert i == |t|;
    assert inserted[..i] == t;
  }

  /** A product just inserted is found by listing with its own name as the filter. */
  lemma InsertedIsListedByName(t: seq<Product>, nombre: string, precio: real, cantidad: int, descuento: real)
    ensures var p := Product(nombre, precio, cantidad, descuento);
            var listing := GetAllProducts(InsertAProduct(t, Some(nombre), Some(precio), Some(cantidad), Some(descuento)).0, Some(nombre));
            listing.Rows? && p in listing.products
  {
    var p := Product(nombre, precio, cantidad, descuento);
    var inserted := t + [p];
    assert OccursAt(Lower(nombre), Lower(nombre), 0);
    assert inserted[|t|] == p;
    assert p in multiset(inserted);
  }
}

/** The inventory session the browser page drives: an ordered list of
    products, addressed by position, that grows by appending and is
    emptied on reset, with the queries and actions of the page's buttons. */
module Inventario {
  import opened Catalogo
  import opened Validacion

  datatype Option<+T> = None | Some(value: T)

  /** Products whose stock is strictly below this count as low on stock. */
  const UmbralBajoStock := 5

  /** `filter(prod => prod.stock < 5)`: the low-stock products, in list order. */
  function FiltrarBajoStock(ps: seq<Producto>): (r: seq<Producto>)
    reads set p | p in ps
    ensures |r| <= |ps|
    ensures forall i :: 0 <= i < |r| ==> r[i].stock < UmbralBajoStock
  {
    if ps == [] then []
    else (if ps[0].stock < UmbralBajoStock then [ps[0]] else []) + FiltrarBajoStock(ps[1..])
  }

  /** `map(prod => prod.informacion)`: one summary line per product, in order. */
  function Informes(ps: seq<Producto>): (r: seq<string>)
    reads set p | p in ps
    ensures |r| == |ps|
    ensures forall i :: 0 <= i < |ps| ==> r[i] == ps[i].Informacion()
  {
    if ps == [] then [] else [ps[0].Informacion()] + Informes(ps[1..])
  }

  /** `r` is `s` with some entries dropped and the rest kept in order. */
  ghost predicate Subsecuencia<T>(r: seq<T>, s: seq<T>)
  {
    if r == [] then true
    else if s == [] then false
    else (r[0] == s[0] && Subsecuencia(r[1..], s[1..])) || Subsecuencia(r, s[1..])
  }

  /** A product is in the filtered list exactly when it is in the list and
      its stock is below the threshold. */
  lemma {:induction false} FiltroMiembros(ps: seq<Producto>, p: Producto)
    ensures p in FiltrarBajoStock(ps) <==> p in ps && p.stock < UmbralBajoStock
  {
    if ps != [] {
      FiltroMiembros(ps[1..], p);
      PrimerPaso(ps);
      assert p in ps <==> p == ps[0] || p in ps[1..];
    }
  }

  /** The filter keeps the order of the list it filters. */
  lemma {:induction false} FiltroEsSubsecuencia(ps: seq<Producto>)
    ensures Subsecuencia(FiltrarBajoStock(ps), ps)
  {
    if ps != [] {
      FiltroEsSubsecuencia(ps[1..]);
      var r := FiltrarBajoStock(ps);
      if ps[0].stock < UmbralBajoStock {
        assert r[0] == ps[0] && r[1..] == FiltrarBajoStock(ps[1..]);
      } else {
        assert r == FiltrarBajoStock(ps[1..]);
      }
    }
  }

  /** Filtering a list made of two parts filters each part on its own: an
      entry's fate depends on its own stock only, and order is kept. */
  lemma {:induction false} FiltroConcatenacion(a: seq<Producto>, b: seq<Producto>)
    ensures FiltrarBajoStock(a + b) == FiltrarBajoStock(a) + FiltrarBajoStock(b)
  {
    if a == [] {
      assert a + b == b;
    } else {
      assert (a + b)[1..] == a[1..] + b;
      FiltroConcatenacion(a[1..], b);
      PrimerPaso(a);
      PrimerPaso(a + b);
    }
  }

  /** One unfolding of the filter on a non-empty list. */
  lemma PrimerPaso(ps: seq<Producto>)
    requires ps != []
    ensures FiltrarBajoStock(ps)
      == (if ps[0].stock < UmbralBajoStock then [ps[0]] else []) + FiltrarBajoStock(ps[1..])
  {
  }

  /** A one-product list keeps its product exactly when the stock is below
      the threshold; a product holding exactly the threshold is dropped. */
  lemma FiltroUnitario(p: Producto)
    ensures FiltrarBajoStock([p]) == if p.stock < UmbralBajoStock then [p] else []
    ensures p.stock == UmbralBajoStock ==> FiltrarBajoStock([p]) == []
  {
    assert [p][1..] == [];
  }

  /** Whether `idx` names a position of a list of length `n`: an integer,
      at least 0 and below `n`. */
  predicate Posicion(idx: Numero, n: nat)
  {
    EsEntero(idx) && 0.0 <= idx.valor < n as real
  }

  /** How a sell or restock request ends. */
  datatype Resultado =
    | SinProducto          // no product selected
    | CantidadInvalida     // the quantity failed validation
    | Hecho(mensaje: Mensaje)

  class Inventario {
    var productos: seq<Producto>

    /** Every product is its own object: the list never holds one twice. */
    ghost predicate Valid()
      reads this
    {
      forall i, j :: 0 <= i < j < |productos| ==> productos[i] != productos[j]
    }

    /** The stock of each product, in list order. */
    ghost function Stocks(): (s: seq<int>)
      reads this, set p | p in productos
      ensures |s| == |productos|
    {
      seq(|productos|, j requires 0 <= j < |productos| reads this, productos => productos[j].stock)
    }

    /** The name and price of each product, in list order. */
    ghost function Etiquetas(): (s: seq<(string, int)>)
      reads this, set p | p in productos
      ensures |s| == |productos|
    {
      seq(|productos|, j requires 0 <= j < |productos| reads this, productos =>
        (productos[j].nombre, productos[j].precio))
    }

    /** What the two views say about the product at position `i`. */
    lemma EnPosicion(i: int)
      requires 0 <= i < |productos|
      ensures Stocks()[i] == productos[i].stock
      ensures Etiquetas()[i] == (productos[i].nombre, productos[i].precio)
    {
    }

    /** The page starts with no products. */
    constructor ()
      ensures Valid() && productos == []
    {
      productos := [];
    }

    /** `addProducto`: builds a product from already validated values and
        appends it; the products already listed keep their positions. */
    method AgregarProducto(nombre: string, precio: int, stock: int)
      requires Valid()
      modifies this
      ensures Valid()
      ensures |productos| == |old(productos)| + 1 && productos[..|old(productos)|] == old(productos)
      ensures fresh(productos[|productos| - 1])
      ensures Etiquetas() == old(Etiquetas()) + [(nombre, precio)]
      ensures Stocks() == old(Stocks()) + [stock]
    {
      var p := new Producto(nombre, precio, stock);
      productos := productos + [p];
    }

    /** `getSelectedProducto`: the product at position `idx`, or nothing
        when `idx` is not an integer position of the list. */
    method SeleccionarProducto(idx: Numero) returns (r: Option<Producto>)
      ensures r.Some? <==> Posicion(idx, |productos|)
      ensures r.Some? ==> r.value == productos[idx.valor.Floor]
    {
      if !EsEntero(idx) || idx.valor < 0.0 || idx.valor >= |productos| as real {
        r := None;
      } else {
        r := Some(productos[idx.valor.Floor]);
      }
    }

    /** `handleVender`: first a product must be selected, then the quantity
        must pass validation; only then is the product asked to sell it.
        Nothing but that product's stock can change. */
    method AccionVender(seleccion: Numero, entrada: Numero) returns (r: Resultado)
      requires Valid()
      modifies set p | p in productos
      ensures Valid() && productos == old(productos)
      ensures Etiquetas() == old(Etiquetas())
      ensures !Posicion(seleccion, |productos|) ==> r == SinProducto && Stocks() == old(Stocks())
      ensures Posicion(seleccion, |productos|) && !ValidarCantidad(entrada).ok ==>
        r == CantidadInvalida && Stocks() == old(Stocks())
      ensures Posicion(seleccion, |productos|) && ValidarCantidad(entrada).ok ==>
        var i, c := seleccion.valor.Floor, ValidarCantidad(entrada).cantidad;
        if c <= old(Stocks())[i] then
          Stocks() == old(Stocks())[i := old(Stocks())[i] - c]
          && r == Hecho(Vendido(productos[i].nombre, c, Stocks()[i]))
        else
          Stocks() == old(Stocks()) && r == Hecho(SinStock(productos[i].nombre))
    {
      var sel := SeleccionarProducto(seleccion);
      if sel.None? {
        return SinProducto;
      }
      var v := ValidarCantidad(entrada);
      if !v.ok {
        return CantidadInvalida;
      }
      ghost var i := seleccion.valor.Floor;
      var m := sel.value.Vender(v.cantidad);
      r := Hecho(m);
      assert forall j :: 0 <= j < |productos| && j != i ==> productos[j] != productos[i];
    }

    /** `handleReponer`: the same checks as a sale, then the selected
        product's stock grows by the quantity. */
    method AccionReponer(seleccion: Numero, entrada: Numero) returns (r: Resultado)
      requires Valid()
      modifies set p | p in productos
      ensures Valid() && productos == old(productos)
      ensures Etiquetas() == old(Etiquetas())
      ensures !Posicion(seleccion, |productos|) ==> r == SinProducto && Stocks() == old(Stocks())
      ensures Posicion(seleccion, |productos|) && !ValidarCantidad(entrada).ok ==>
        r == CantidadInvalida && Stocks() == old(Stocks())
      ensures Posicion(seleccion, |productos|) && ValidarCantidad(entrada).ok ==>
        var i, c := seleccion.valor.Floor, ValidarCantidad(entrada).cantidad;
        Stocks() == old(Stocks())[i := old(Stocks())[i] + c]
        && r == Hecho(Repuesto(productos[i].nombre, Stocks()[i]))
    {
      var sel := SeleccionarProducto(seleccion);
      if sel.None? {
        return SinProducto;
      }
      var v := ValidarCantidad(entrada);
      if !v.ok {
        return CantidadInvalida;
      }
      ghost var i := seleccion.valor.Floor;
      var m := sel.value.Reponer(v.cantidad);
      r := Hecho(m);
      assert forall j :: 0 <= j < |productos| && j != i ==> productos[j] != productos[i];
    }

    /** `handleBajoStock`: with no products there is nothing to filter;
        otherwise the summary lines of the low-stock products, in order. */
    method BajoStock() returns (r: Option<seq<string>>)
      ensures r.None? <==> productos == []
      ensures r.Some? ==> r.value == Informes(FiltrarBajoStock(productos))
    {
      if |productos| == 0 {
        return None;
      }
      var bajo := FiltrarBajoStock(productos);
      r := Some(Informes(bajo));
    }

    /** `handleMasCaro`: needs two products, and then compares the first
        and the second only, whatever follows them in the list. */
    method MasCaro() returns (r: Option<string>)
      ensures r.None? <==> |productos| < 2
      ensures r.Some? ==> r.value == Producto.CompararPrecio(productos[0], productos[1])
    {
      if |productos| < 2 {
        return None;
      }
      var a := productos[0];
      var b := productos[1];
      r := Some(Producto.CompararPrecio(a, b));
    }

    /** `resetAll`: the list is emptied. */
    method Reiniciar()
      modifies this
      ensures Valid() && productos == []
    {
      productos := [];
    }

    /** `loadDemo`: the list is emptied and refilled with the three demo products. */
    method CargarDemo()
      modifies this
      ensures Valid()
      ensures forall p :: p in productos ==> fresh(p)
      ensures Etiquetas() == [("Teclado", 25000), ("Mouse", 12000), ("Monitor", 55000)]
      ensures Stocks() == [10, 5, 2]
    {
      productos := [];
      AgregarProducto("Teclado", 25000, 10);
      AgregarProducto("Mouse", 12000, 5);
      AgregarProducto("Monitor", 55000, 2);
    }
  }
}

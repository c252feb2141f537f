/** The inventory item: a product with a name, a price and a stock that
    sales decrease and restocking increases, never letting a sale drive
    the stock below zero. */
module Catalogo {
  import opened Formato

  /** What a sale or a restock reports. The rendered sentences are given by Texto. */
  datatype Mensaje =
    | Vendido(nombre: string, cantidad: int, restante: int)   // sale done, `restante` left
    | SinStock(nombre: string)                                 // not enough stock, nothing sold
    | Repuesto(nombre: string, stock: int)                     // stock raised to `stock`

  /** The sentence a message is shown as. The three kinds of sentence start
      with different letters, so the log line alone tells which outcome
      happened. */
  function Texto(m: Mensaje): (r: string)
    ensures |r| > 0
    ensures m.Vendido? <==> r[0] == 'V'
    ensures m.SinStock? <==> r[0] == 'N'
    ensures m.Repuesto? <==> r[0] == 'S'
  {
    match m
    case Vendido(nombre, cantidad, restante) =>
      "Venta realizada: " + Decimal(cantidad) + " unidad(es) de " + nombre
        + ". Stock restante: " + Decimal(restante)
    case SinStock(nombre) =>
      "No hay suficiente stock de " + nombre + " para realizar la venta."
    case Repuesto(nombre, stock) =>
      "Stock de " + nombre + " aumentado a " + Decimal(stock) + "."
  }

  /** The stock a product summary line reports: the numeral after its last space. */
  function StockInformado(info: string): int
    requires EsDecimal(TrasUltimoEspacio(info))
  {
    LeerDecimal(TrasUltimoEspacio(info))
  }

  /** The summary line of a product with these field values. */
  function Resumen(nombre: string, precio: int, stock: int): string
  {
    "Producto: " + nombre + " | Precio: $" + Decimal(precio) + " | Stock: " + Decimal(stock)
  }

  /** The last field of a summary line is the stock numeral. */
  lemma UltimoCampoResumen(nombre: string, precio: int, stock: int)
    ensures TrasUltimoEspacio(Resumen(nombre, precio, stock)) == Decimal(stock)
  {
    var cabeza := "Producto: " + nombre + " | Precio: $" + Decimal(precio) + " | Stock:";
    assert Resumen(nombre, precio, stock) == cabeza + " " + Decimal(stock);
    UltimoCampo(cabeza, Decimal(stock));
  }

  /** A summary line opens with the product's name and price, followed by
      the label of the stock field. */
  lemma AperturaResumen(nombre: string, precio: int, stock: int)
    ensures "Producto: " + nombre + " | Precio: $" + Decimal(precio) + " | Stock: " <= Resumen(nombre, precio, stock)
  {
    var apertura := "Producto: " + nombre + " | Precio: $" + Decimal(precio) + " | Stock: ";
    var resto := Decimal(stock);
    assert Resumen(nombre, precio, stock) == apertura + resto;
    assert (apertura + resto)[..|apertura|] == apertura;
  }

  /** The stock read back from a summary line is the stock it was made from. */
  lemma StockResumen(nombre: string, precio: int, stock: int)
    ensures EsDecimal(TrasUltimoEspacio(Resumen(nombre, precio, stock)))
    ensures StockInformado(Resumen(nombre, precio, stock)) == stock
  {
    UltimoCampoResumen(nombre, precio, stock);
    DecimalIdaVuelta(stock);
  }

  class Producto {
    var nombre: string
    var precio: int
    var stock: int

    /** No validation happens here: the form checks the values before a product is built. */
    constructor (nombre: string, precio: int, stock: int)
      ensures this.nombre == nombre && this.precio == precio && this.stock == stock
    {
      this.nombre := nombre;
      this.precio := precio;
      this.stock := stock;
    }

    /** Sells `cantidad` units when the stock covers them; otherwise reports
        the shortage and changes nothing. A sale never makes a non-negative
        stock negative, because it happens only when `stock - cantidad >= 0`. */
    method Vender(cantidad: int) returns (m: Mensaje)
      modifies this`stock
      ensures cantidad <= old(stock) ==> stock == old(stock) - cantidad && m == Vendido(nombre, cantidad, stock)
      ensures cantidad > old(stock) ==> stock == old(stock) && m == SinStock(nombre)
      ensures old(stock) >= 0 ==> stock >= 0
    {
      if cantidad <= stock {
        stock := stock - cantidad;
        m := Vendido(nombre, cantidad, stock);
      } else {
        m := SinStock(nombre);
      }
    }

    /** Adds `cantidad` units, with no upper bound and no check, and reports the new stock. */
    method Reponer(cantidad: int) returns (m: Mensaje)
      modifies this`stock
      ensures stock == old(stock) + cantidad
      ensures m == Repuesto(nombre, stock)
    {
      stock := stock + cantidad;
      m := Repuesto(nombre, stock);
    }

    /** The one-line summary of the product (the `informacion` getter).
        What the line tells about the product is stated by
        InformacionReportaStock. */
    function Informacion(): string
      reads this
    {
      Resumen(nombre, precio, stock)
    }

    /** The name of the dearer of two products. The comparison is a strict
        `>`, so on equal prices the second product's name is returned. */
    static function CompararPrecio(a: Producto, b: Producto): (r: string)
      reads a, b
      ensures a.precio > b.precio ==> r == a.nombre
      ensures a.precio <= b.precio ==> r == b.nombre
    {
      if a.precio > b.precio then a.nombre else b.nombre
    }
  }

  /** The name returned belongs to a product whose price is not below the other's. */
  lemma CompararPrecioDaElMasCaro(a: Producto, b: Producto)
    ensures var r := Producto.CompararPrecio(a, b);
      (r == a.nombre && a.precio >= b.precio) || (r == b.nombre && b.precio >= a.precio)
  {
  }

  /** When the prices differ the answer does not depend on the argument order;
      on a tie it does: each order returns its second argument's name. */
  lemma CompararPrecioOrden(a: Producto, b: Producto)
    ensures a.precio != b.precio ==> Producto.CompararPrecio(a, b) == Producto.CompararPrecio(b, a)
    ensures a.precio == b.precio ==>
      Producto.CompararPrecio(a, b) == b.nombre && Producto.CompararPrecio(b, a) == a.nombre
  {
  }

  /** A product's summary opens with its name and price, followed by the
      label of the stock field, and its last field reads back as its current
      stock. */
  lemma InformacionReportaStock(p: Producto)
    ensures "Producto: " + p.nombre + " | Precio: $" + Decimal(p.precio) + " | Stock: " <= p.Informacion()
    ensures EsDecimal(TrasUltimoEspacio(p.Informacion()))
    ensures StockInformado(p.Informacion()) == p.stock
  {
    AperturaResumen(p.nombre, p.precio, p.stock);
    StockResumen(p.nombre, p.precio, p.stock);
  }

  /** Two summaries of products that differ in stock are different lines. */
  lemma InformacionDistingueStock(p: Producto, q: Producto)
    requires p.stock != q.stock
    ensures p.Informacion() != q.Informacion()
  {
    InformacionReportaStock(p);
    InformacionReportaStock(q);
  }
}

/** The fixed demonstration the program runs when there is no page (and
    from the page's "run the exercise" button), and the page's demo data. */
module Demo {
  import opened Formato
  import opened Catalogo
  import opened Inventario

  /** Of three products only the third is below the threshold. */
  lemma FiltroDemo(a: Producto, b: Producto, c: Producto)
    requires a.stock >= UmbralBajoStock && b.stock >= UmbralBajoStock && c.stock < UmbralBajoStock
    ensures FiltrarBajoStock([a, b, c]) == [c]
  {
    var lista := [a, b, c];
    PrimerPaso(lista);
    PrimerPaso(lista[1..]);
    PrimerPaso(lista[2..]);
  }

  /** `runEnunciadoDemo`, with what each `console.log` call prints: Teclado's
      summary, the sale of 3, the restock of 5, the summary again, the name
      the price comparison with Mouse gives (printed after "El producto más
      caro es: "), and the low-stock summaries.
      Teclado ends with 12 units and Mouse holds exactly 5, so only Monitor
      is below the threshold. */
  method DemoEnunciado() returns (inicial: string, venta: Mensaje, reposicion: Mensaje, final: string,
                                   masCaro: string, bajoStock: seq<string>)
    ensures inicial == Resumen("Teclado", 25000, 10)
    ensures venta == Vendido("Teclado", 3, 7)
    ensures reposicion == Repuesto("Teclado", 12)
    ensures final == Resumen("Teclado", 25000, 12)
    ensures masCaro == "Teclado"
    ensures bajoStock == [Resumen("Monitor", 55000, 2)]
  {
    var prod1 := new Producto("Teclado", 25000, 10);
    var prod2 := new Producto("Mouse", 12000, 5);

    inicial := prod1.Informacion();
    venta := prod1.Vender(3);
    reposicion := prod1.Reponer(5);
    final := prod1.Informacion();
    masCaro := Producto.CompararPrecio(prod1, prod2);

    var prod3 := new Producto("Monitor", 55000, 2);
    var lista := [prod1, prod2, prod3];
    var bajo := FiltrarBajoStock(lista);
    FiltroDemo(prod1, prod2, prod3);
    bajoStock := Informes(bajo);
  }

  // The text of the demo's console lines, evaluated from the rendering functions.

  lemma CifrasSueltas()
    ensures Decimal(2) == "2" && Decimal(3) == "3" && Decimal(7) == "7"
  {
  }

  lemma CifrasDobles()
    ensures Decimal(10) == "10" && Decimal(12) == "12"
  {
  }

  lemma CifraTecladoPrecio()
    ensures Decimal(25000) == "25000"
  {
    assert Digitos(25) == "25";
    assert Digitos(250) == "250";
    assert Digitos(2500) == "2500";
  }

  lemma CifraMonitorPrecio()
    ensures Decimal(55000) == "55000"
  {
    assert Digitos(55) == "55";
    assert Digitos(550) == "550";
    assert Digitos(5500) == "5500";
  }

  lemma LineaTecladoInicial()
    ensures Resumen("Teclado", 25000, 10) == "Producto: Teclado | Precio: $25000 | Stock: 10"
  {
    CifrasDobles();
    CifraTecladoPrecio();
  }

  lemma LineaTecladoFinal()
    ensures Resumen("Teclado", 25000, 12) == "Producto: Teclado | Precio: $25000 | Stock: 12"
  {
    CifrasDobles();
    CifraTecladoPrecio();
  }

  lemma LineaMonitor()
    ensures Resumen("Monitor", 55000, 2) == "Producto: Monitor | Precio: $55000 | Stock: 2"
  {
    CifrasSueltas();
    CifraMonitorPrecio();
  }

  lemma LineaVenta()
    ensures Texto(Vendido("Teclado", 3, 7)) == "Venta realizada: 3 unidad(es) de Teclado. Stock restante: 7"
  {
    CifrasSueltas();
    assert Texto(Vendido("Teclado", 3, 7))
      == "Venta realizada: " + "3" + " unidad(es) de " + "Teclado" + ". Stock restante: " + "7";
    TextoVenta();
  }

  lemma TextoVenta()
    ensures "Venta realizada: " + "3" + " unidad(es) de " + "Teclado" + ". Stock restante: " + "7"
      == "Venta realizada: 3 unidad(es) de Teclado. Stock restante: 7"
  {
  }

  lemma LineaReposicion()
    ensures Texto(Repuesto("Teclado", 12)) == "Stock de Teclado aumentado a 12."
  {
    CifrasDobles();
  }

  /** The page's demo button followed by the comparison button. The
      comparison looks at the first two products only, so it names Teclado
      although Monitor, third in the list, is dearer than both. */
  method DemoPagina() returns (masCaro: Option<string>)
    ensures masCaro == Some("Teclado")
  {
    var inventario := new Inventario();
    inventario.CargarDemo();
    inventario.EnPosicion(0);
    inventario.EnPosicion(1);
    masCaro := inventario.MasCaro();
  }
}

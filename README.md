# InventarioProductos in Dafny

This project models `app.js` from InventarioProductos. The app is a small product inventory written as an ES6 class with a browser page around it.

- **The product** (`Producto`) has a name, a price and a stock.
  - A sale (`vender`) lowers the stock only when the stock covers the quantity. Otherwise it reports the shortage and changes nothing.
  - A restock (`reponer`) adds to the stock unconditionally.
  - The `informacion` getter renders a one-line summary.
  - The static `compararPrecio` names the dearer of two products, using a strict `>`.
- **The page** keeps an ordered list of products, addressed by position. It can:
  - append a product built from validated form fields;
  - sell or restock the selected product after checking the selection and the quantity;
  - list the summaries of the products whose stock is strictly below 5;
  - compare the first two products;
  - load the three demo products, or empty the list.
- **The fixed demonstration** (`runEnunciadoDemo`) runs when there is no page. The page's "run the exercise" button runs it too.

The modules follow the program's parts:

- `Formato` (formato.dfy) renders integers the way a template literal `${n}` does, and reads them back.
- `Catalogo` (catalogo.dfy) holds the `Producto` class, its result messages and its summary line.
- `Validacion` (validacion.dfy) holds the form checks over JavaScript numbers and `String.prototype.trim`.
- `Inventario` (inventario.dfy) holds the low-stock filter and map, and the `Inventario` class for the page's product list and button handlers.
- `Demo` (demo.dfy) holds the demonstration script and the page's demo data.

Prices, stocks and quantities are integers in the model. A form field arrives as a `Numero`. That type is either a finite value (a real) or `NoFinito`, which stands for NaN and ±Infinity: the code treats those alike, because `Number.isFinite` rejects them.

A sale or restock reports a structured `Mensaje`. The `Texto` function gives the sentence the code builds for it.

The demonstration's final filter gives Monitor only. Mouse holds exactly 5 units, and the filter at app.js:94 keeps only stocks strictly below 5, so Mouse is not included.

## Model

| member | source | states |
|---|---|---|
| Formato.Decimal | app.js:64 | `${n}` for an integer yields a numeral with no space in it. It starts with '-' exactly when the integer is negative, and it has no leading zero unless the integer is 0. |
| Formato.DecimalIdaVuelta | app.js:64 | An integer rendered as `${n}` reads back as the same integer. |
| Formato.DecimalInyectivo | app.js:64 | Two integers render to the same numeral exactly when they are equal. |
| Formato.UltimoCampo | app.js:64 | A final field written after a space, with no space in it, is exactly what follows the line's last space. |
| Catalogo.Texto | app.js:43-56 | Gives the sentence `vender` or `reponer` returns for each outcome. The sale, shortage and restock sentences are non-empty and start with different letters ('V', 'N', 'S'), so the sentence tells which branch ran. |
| Catalogo.UltimoCampoResumen | app.js:64 | The text after the last space of a summary line is the stock numeral. |
| Catalogo.AperturaResumen | app.js:64 | A summary line opens with "Producto: ", the name, " \| Precio: $", the price numeral and " \| Stock: ". |
| Catalogo.StockResumen | app.js:64 | The stock read back from a summary line is the stock it was built from. |
| Catalogo.Producto.constructor | app.js:29-33 | The new product holds exactly the given name, price and stock, with no validation. |
| Catalogo.Producto.Vender | app.js:40-47 | When `cantidad <= stock`, stock drops by `cantidad` and the sale reports the quantity and the new stock. Otherwise stock is unchanged and a shortage is reported. A non-negative stock stays non-negative. Only `stock` may change, so name and price are untouched. |
| Catalogo.Producto.Reponer | app.js:54-57 | Stock grows by `cantidad` with no check, and the new stock is reported. Only `stock` may change. |
| Catalogo.Producto.CompararPrecio | app.js:71-73 | Returns the first product's name exactly when its price is strictly greater. Otherwise, ties included, it returns the second product's name. |
| Catalogo.CompararPrecioDaElMasCaro | app.js:71-73 | The name returned belongs to a product whose price is at least the other's. |
| Catalogo.CompararPrecioOrden | app.js:71-73 | When the prices differ, swapping the arguments gives the same answer. On a tie each order returns its second argument's name. |
| Catalogo.InformacionReportaStock | app.js:63-65 | The `informacion` getter gives the summary line of the product's current fields. That line starts with "Producto: ", the name, " \| Precio: $", the price numeral and " \| Stock: ", and its last field reads back as the current stock. |
| Catalogo.InformacionDistingueStock | app.js:63-65 | Products whose stocks differ have different `informacion` lines. |
| Validacion.Recortar | app.js:210 | `trim` yields the part of the text between its leading and trailing ECMAScript white space. Its ends are not white space. It is empty exactly when the text is all white space. |
| Validacion.RecortarIdempotente | app.js:210 | Trimming twice gives the same result as trimming once. |
| Validacion.ValidarAlta | app.js:196-232 | The name is flagged exactly when it trims to nothing. Price and stock are each flagged exactly when they are not a finite number `>= 0` (fractions pass). The form is accepted exactly when nothing is flagged. The trimmed name and both numbers are handed back. |
| Validacion.ValidarCantidad | app.js:237-250 | A quantity is accepted exactly when it is an integer greater than 0, and then it is returned unchanged. A rejected quantity comes back as 0. |
| Inventario.FiltrarBajoStock | app.js:347 | The filtered list is no longer than the list, and every entry in it has stock below 5. |
| Inventario.FiltroMiembros | app.js:94 | A product is in the filtered list exactly when it is in the list and its stock is below 5. |
| Inventario.FiltroEsSubsecuencia | app.js:347 | The filtered list is an order-preserving subsequence of the list. |
| Inventario.FiltroConcatenacion | app.js:347 | Filtering a concatenation concatenates the filtered parts, so each entry's fate depends only on its own stock. |
| Inventario.FiltroUnitario | app.js:94 | A single product is kept exactly when its stock is below 5. A stock of exactly 5 is dropped. |
| Inventario.Informes | app.js:350 | `map(prod => prod.informacion)` gives one line per product, in order, each being that product's `informacion`. |
| Inventario.Inventario.constructor | app.js:166-168 | The page starts with an empty product list. |
| Inventario.Inventario.AgregarProducto | app.js:256-261 | `addProducto` appends one new product at the end. Earlier entries keep their positions. The name, price and stock lists each gain exactly the new values at the end. |
| Inventario.Inventario.SeleccionarProducto | app.js:263-271 | A product is selected exactly when the index is an integer with `0 <= idx < length`, and it is the product at that index. Otherwise there is none. |
| Inventario.Inventario.AccionVender | app.js:293-314 | With no selection, or with an invalid quantity, no stock changes and that outcome is reported. Otherwise the selected product sells exactly as `vender` does, and every other product's stock is unchanged. The list itself and every name and price stay unchanged. |
| Inventario.Inventario.AccionReponer | app.js:316-337 | The same checks as a sale. Then only the selected product's stock grows by the quantity, and the new stock is reported. The list itself and every name and price stay unchanged. |
| Inventario.Inventario.BajoStock | app.js:339-360 | With no products nothing is listed. Otherwise the result is the summary lines of the low-stock products, in list order. |
| Inventario.Inventario.MasCaro | app.js:362-376 | Needs at least two products. Then it gives the comparison of the products at positions 0 and 1. |
| Inventario.Inventario.Reiniciar | app.js:389-391 | `resetAll` empties the product list. |
| Inventario.Inventario.CargarDemo | app.js:378-387 | `loadDemo` replaces the list with three new products: Teclado 25000 ×10, Mouse 12000 ×5 and Monitor 55000 ×2, in that order. |
| Demo.FiltroDemo | app.js:93-94 | Of three products where only the third has stock below 5, the filter keeps the third alone. |
| Demo.DemoEnunciado | app.js:81-97 | The demo prints, in order: Teclado's summary with stock 10; a sale of 3 leaving 7; a restock to 12; the summary with stock 12; "Teclado" as the dearer of Teclado and Mouse; and the summary of Monitor as the only low-stock product. |
| Demo.LineaTecladoInicial | app.js:86 | The first demo line is "Producto: Teclado \| Precio: $25000 \| Stock: 10". |
| Demo.LineaVenta | app.js:87 | The sale line is "Venta realizada: 3 unidad(es) de Teclado. Stock restante: 7". |
| Demo.LineaReposicion | app.js:88 | The restock line is "Stock de Teclado aumentado a 12.". |
| Demo.LineaTecladoFinal | app.js:89 | The fourth demo line is "Producto: Teclado \| Precio: $25000 \| Stock: 12". |
| Demo.LineaMonitor | app.js:96 | The only low-stock line is "Producto: Monitor \| Precio: $55000 \| Stock: 2". |
| Demo.DemoPagina | app.js:362-383 | After the page's demo load, the comparison names Teclado. Monitor is dearer, but it is third, and only the first two are compared. |

## Left out

- DOM and presentation are not modelled. This covers `$`, `setStatus`, `showMessage`, `hideMessage`, `setFieldError`, `clearFieldError`, `appendLog`, `clearLog` and `renderSelect`: they change only what the page shows.
- Event wiring, the `init` call and the `IS_BROWSER` test are not modelled. They decide when handlers run, not what they do.
- `Number(...)` on a field's text is not modelled. Each check receives the number that coercion produced, as a `Numero`.
- IEEE-754 rounding is not modelled: finite numbers are exact reals.
- Producto: prices and stocks are integers, while the form accepts fractional prices and stocks. A product built from a fractional field is therefore outside the model.
- `handleAddSubmit` is not modelled as a member. It only chains `ValidarAlta` and `AgregarProducto`, and the integer fields above keep the two from composing directly.
- Formato.Decimal: renders every integer as plain digits. JavaScript switches to exponent notation from 1e21 upward, and that is not modelled.
- `console.log` of an array prints it in brackets. DemoEnunciado returns the low-stock lines as a sequence instead.
- DemoEnunciado returns the comparison's product name. The console prints it after the fixed prefix "El producto más caro es: ".
- The page's log lines in `handleBajoStock` and `handleMasCaro` are left out: the heading, the "— Ninguno —" line and the comparison prefix are fixed text.
- The form and field resets in `resetAll` and `handleAddSubmit` are left out: they touch only inputs, not the product list.

/** The checks the inventory form applies before it builds a product or
    acts on a quantity. Each field arrives as a JavaScript number, the
    result of `Number(...)` on the field's text. */
module Validacion {

  /** A JavaScript number: a finite value, or NaN / +Infinity / -Infinity,
      which every check here treats alike (`Number.isFinite` is false). */
  datatype Numero = Finito(valor: real) | NoFinito

  /** `Number.isInteger`: finite and without a fractional part. */
  predicate EsEntero(x: Numero)
  {
    x.Finito? && x.valor.Floor as real == x.valor
  }

  /** The characters `String.prototype.trim` removes: the ECMAScript
      WhiteSpace code points (tab, vertical tab, form feed, the byte order
      mark and every space separator) and the LineTerminator code points. */
  predicate Blanco(c: char)
  {
    var k := c as int;
    k == 0x09 || k == 0x0A || k == 0x0B || k == 0x0C || k == 0x0D || k == 0x20
    || k == 0xA0 || k == 0x1680 || (0x2000 <= k <= 0x200A) || k == 0x2028
    || k == 0x2029 || k == 0x202F || k == 0x205F || k == 0x3000 || k == 0xFEFF
  }

  /** How many blanks `s` starts with. */
  function BlancosIniciales(s: string): (n: nat)
    ensures n <= |s| && (n == |s| || !Blanco(s[n]))
    ensures forall i :: 0 <= i < n ==> Blanco(s[i])
  {
    if s != [] && Blanco(s[0]) then 1 + BlancosIniciales(s[1..]) else 0
  }

  /** `s` without its trailing blanks. */
  function RecortarFin(s: string): (r: string)
    ensures |r| <= |s| && r == s[..|r|]
    ensures r == [] || !Blanco(r[|r| - 1])
    ensures forall i :: |r| <= i < |s| ==> Blanco(s[i])
  {
    if s != [] && Blanco(s[|s| - 1]) then RecortarFin(s[..|s| - 1]) else s
  }

  /** `String.prototype.trim`: the part of `s` between its leading and its
      trailing blanks. It is empty exactly when `s` holds nothing but blanks. */
  function Recortar(s: string): (r: string)
    ensures BlancosIniciales(s) + |r| <= |s|
    ensures r == s[BlancosIniciales(s)..BlancosIniciales(s) + |r|]
    ensures forall i :: BlancosIniciales(s) + |r| <= i < |s| ==> Blanco(s[i])
    ensures r == [] || (!Blanco(r[0]) && !Blanco(r[|r| - 1]))
    ensures r == [] <==> forall i :: 0 <= i < |s| ==> Blanco(s[i])
  {
    var n := BlancosIniciales(s);
    var r := RecortarFin(s[n..]);
    assert forall i :: n + |r| <= i < |s| ==> Blanco(s[i]) by {
      forall i | n + |r| <= i < |s| ensures Blanco(s[i]) {
        assert s[i] == s[n..][i - n];
      }
    }
    if r == [] then
      r
    else
      assert r[0] == s[n];
      r
  }

  /** Trimming twice is trimming once. */
  lemma RecortarIdempotente(s: string)
    ensures Recortar(Recortar(s)) == Recortar(s)
  {
    var r := Recortar(s);
    assert BlancosIniciales(r) == 0;
    assert RecortarFin(r) == r;
  }

  /** The fields of the product form. */
  datatype Campo = Nombre | Precio | Stock

  /** What `validateAddForm` hands back: the trimmed name, the two numbers
      and the fields it marked as wrong; `ok` when none was. */
  datatype Alta = Alta(ok: bool, nombre: string, precio: Numero, stock: Numero, errores: set<Campo>)

  /** A price or stock is accepted when it is a finite number `>= 0`;
      fractional values pass. */
  predicate NoNegativo(x: Numero)
  {
    x.Finito? && x.valor >= 0.0
  }

  /** Checks the three fields independently, marking each one that fails. */
  function ValidarAlta(nombre: string, precio: Numero, stock: Numero): (r: Alta)
    ensures r.nombre == Recortar(nombre) && r.precio == precio && r.stock == stock
    ensures Nombre in r.errores <==> forall i :: 0 <= i < |nombre| ==> Blanco(nombre[i])
    ensures Precio in r.errores <==> !NoNegativo(precio)
    ensures Stock in r.errores <==> !NoNegativo(stock)
    ensures r.ok <==> r.errores == {}
  {
    var n := Recortar(nombre);
    var errores :=
      (if n == [] then {Nombre} else {})
      + (if precio.NoFinito? || precio.valor < 0.0 then {Precio} else {})
      + (if stock.NoFinito? || stock.valor < 0.0 then {Stock} else {});
    Alta(errores == {}, n, precio, stock, errores)
  }

  /** What `validateCantidad` hands back. */
  datatype Cantidad = Cantidad(ok: bool, cantidad: int)

  /** A quantity is accepted only when it is an integer greater than zero;
      a rejected quantity comes back as 0. */
  function ValidarCantidad(x: Numero): (r: Cantidad)
    ensures r.ok <==> EsEntero(x) && x.valor > 0.0
    ensures r.ok ==> r.cantidad > 0 && r.cantidad as real == x.valor
    ensures !r.ok ==> r.cantidad == 0
  {
    if x.NoFinito? || x.valor <= 0.0 || x.valor.Floor as real != x.valor then Cantidad(false, 0)
    else Cantidad(true, x.valor.Floor)
  }
}

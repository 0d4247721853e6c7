/** The metadata table builder: the C array initialisers for the enabled
    coefficients, the finite-element hashes and derivative orders, and the
    scalar fields of the descriptor struct. Line numbers in the comments
    below refer to ffcx/codegeneration/C/integrals.py. */
module Metadata {
  import opened Text
  import opened IntegralIR

  /** A struct field bound to an array: the declaration that defines the
      array (empty when there is none) and the pointer the struct holds. */
  datatype ArrayField = ArrayField(init: string, pointer: string)

  const Null: string := "NULL"

  /** `UINT64_C(v)`: the number is written in decimal between the
      parentheses and reads back as `v`. */
  function UInt64Literal(v: UInt64): (r: string)
    ensures |r| > 10 && r[..9] == "UINT64_C(" && r[|r| - 1] == ')'
    ensures AllDigits(r[9..|r| - 1]) && ParseDecimal(r[9..|r| - 1]) == v as int
    ensures ',' !in r
  {
    var digits := Decimal(v as int);
    DecimalRoundTrip(v as int);
    var r := "UINT64_C(" + digits + ")";
    assert r[9..|r| - 1] == digits;
    assert forall i :: 0 <= i < |r| ==> r[i] != ',' by {
      forall i | 0 <= i < |r| ensures r[i] != ',' {
        if 9 <= i < |r| - 1 { assert r[i] == digits[i - 9]; }
      }
    }
    r
  }

  /** A hash that is `None` is written as 0. */
  function HashOrZero(h: Option<UInt64>): UInt64
  {
    if h.None? then 0 else h.value
  }

  /** `"1" if i else "0" for i in enabled_coefficients` */
  function CoefficientLiterals(flags: seq<bool>): (r: seq<string>)
    ensures |r| == |flags|
    ensures forall i :: 0 <= i < |flags| ==> r[i] == (if flags[i] then "1" else "0")
  {
    if |flags| == 0 then []
    else [if flags[0] then "1" else "0"] + CoefficientLiterals(flags[1..])
  }

  /** `f"UINT64_C({0 if el is None else el})" for el in finite_element_hashes` */
  function HashLiterals(hashes: seq<Option<UInt64>>): (r: seq<string>)
    ensures |r| == |hashes|
    ensures forall i :: 0 <= i < |hashes| ==> r[i] == UInt64Literal(HashOrZero(hashes[i]))
  {
    if |hashes| == 0 then []
    else [UInt64Literal(HashOrZero(hashes[0]))] + HashLiterals(hashes[1..])
  }

  /** `str(i) for i in finite_element_deriv_order` */
  function DerivOrderLiterals(orders: seq<int>): (r: seq<string>)
    ensures |r| == |orders|
    ensures forall i :: 0 <= i < |orders| ==> r[i] == IntText(orders[i])
  {
    if |orders| == 0 then []
    else [IntText(orders[0])] + DerivOrderLiterals(orders[1..])
  }

  /** `<ctype> <symbol>[<size>] = {<v0>, <v1>, ...};`: the declaration
      names `symbol` after its C type, the text between the brackets is the
      size in decimal and reads back as `size`, and the joined initialisers
      sit between `] = {` and the closing `};`. */
  function ArrayDeclaration(cType: string, symbol: string, size: nat, values: seq<string>): (d: string)
    ensures var k := |cType| + |symbol| + 2;
            var n := |Decimal(size)|;
            && |d| == k + n + 5 + |Join(", ", values)| + 2
            && d[..k - 1] == cType + " " + symbol
            && d[k - 1] == '[' && d[k + n..k + n + 5] == "] = {"
            && AllDigits(d[k..k + n]) && ParseDecimal(d[k..k + n]) == size
            && d[k + n + 5..|d| - 2] == Join(", ", values)
            && d[|d| - 2..] == "};"
  {
    var digits := Decimal(size);
    DecimalRoundTrip(size);
    var head := cType + " " + symbol + "[";
    var body := Join(", ", values);
    var d := head + digits + "] = {" + body + "};";
    assert d == (head + digits) + ("] = {" + body + "};");
    assert d[|head|..|head| + |digits|] == digits;
    assert d[..|head| - 1] == cType + " " + symbol;
    assert d[|head| + |digits|..|head| + |digits| + 5] == "] = {";
    assert d[|head| + |digits| + 5..|d| - 2] == body;
    d
  }

  /** Lines 137-146: a non-empty flag list becomes a `bool` array named
      after the integral, an empty one no array and a NULL pointer. */
  function EnabledCoefficients(name: string, flags: seq<bool>): (f: ArrayField)
    ensures |flags| == 0 <==> f.init == ""
    ensures |flags| == 0 <==> f.pointer == Null
    ensures |flags| > 0 ==> f.pointer == "enabled_coefficients_" + name
  {
    if |flags| > 0 then
      var symbol := "enabled_coefficients_" + name;
      ArrayField(ArrayDeclaration("bool", symbol, |flags|, CoefficientLiterals(flags)), symbol)
    else
      ArrayField("", Null)
  }

  /** Lines 153-172: with elements, a `uint64_t` hash array and an `int`
      derivative-order array, both of the hash list's length; without, no
      arrays and two NULL pointers. The caller has checked that the two
      lists have the same length. */
  function FiniteElementArrays(name: string, hashes: seq<Option<UInt64>>, orders: seq<int>)
    : (fs: (ArrayField, ArrayField))
    requires |hashes| == |orders|
    ensures |hashes| == 0 <==> fs.0.init == ""
    ensures |hashes| == 0 <==> fs.1.init == ""
    ensures |hashes| == 0 <==> fs.0.pointer == Null
    ensures |hashes| == 0 <==> fs.1.pointer == Null
    ensures |hashes| > 0 ==> fs.0.pointer == "finite_element_hashes_" + name
    ensures |hashes| > 0 ==> fs.1.pointer == "finite_element_deriv_order_" + name
  {
    var size := |hashes|;
    if size > 0 then
      var hashSymbol := "finite_element_hashes_" + name;
      var orderSymbol := "finite_element_deriv_order_" + name;
      (ArrayField(ArrayDeclaration("uint64_t", hashSymbol, size, HashLiterals(hashes)), hashSymbol),
       ArrayField(ArrayDeclaration("int", orderSymbol, size, DerivOrderLiterals(orders)), orderSymbol))
    else
      (ArrayField("", Null), ArrayField("", Null))
  }

  /** Line 148 and 186: a missing coordinate-element hash is written as 0. */
  function CoordinateElementHash(h: Option<UInt64>): (r: string)
    ensures h.None? ==> r == "UINT64_C(0)"
    ensures |r| > 10 && AllDigits(r[9..|r| - 1]) && ParseDecimal(r[9..|r| - 1]) == HashOrZero(h) as int
  {
    UInt64Literal(HashOrZero(h))
  }

  /** Line 183: the C spelling of a boolean. */
  function BoolText(b: bool): (r: string)
    ensures r == "true" || r == "false"
    ensures r == "true" <==> b
  {
    if b then "true" else "false"
  }

  /** The only commas in an array declaration are the separators between
      its values, so a C compiler reads exactly `|values|` initialisers,
      as many as the size between the brackets says. */
  lemma ArrayDeclarationShape(cType: string, symbol: string, size: nat, values: seq<string>)
    requires size == |values| > 0
    requires ',' !in cType && ',' !in symbol
    requires forall i :: 0 <= i < |values| ==> ',' !in values[i]
    ensures Count(',', ArrayDeclaration(cType, symbol, size, values)) == size - 1
  {
    JoinCount(',', ", ", values);
    var head := cType + " " + symbol + "[" + Decimal(size) + "] = {";
    assert ',' !in head;
    CountAppend(',', head, Join(", ", values));
    CountAppend(',', head + Join(", ", values), "};");
  }

  /** The coefficient array lists one initialiser per flag, and its size is
      the number of flags. */
  lemma EnabledCoefficientsCount(name: string, flags: seq<bool>)
    requires |flags| > 0 && ',' !in name
    ensures Count(',', EnabledCoefficients(name, flags).init) == |flags| - 1
  {
    var symbol := "enabled_coefficients_" + name;
    ArrayDeclarationShape("bool", symbol, |flags|, CoefficientLiterals(flags));
  }

  /** Both element arrays list one initialiser per element. */
  lemma FiniteElementArraysCount(name: string, hashes: seq<Option<UInt64>>, orders: seq<int>)
    requires |hashes| == |orders| > 0 && ',' !in name
    ensures Count(',', FiniteElementArrays(name, hashes, orders).0.init) == |hashes| - 1
    ensures Count(',', FiniteElementArrays(name, hashes, orders).1.init) == |hashes| - 1
  {
    var hashSymbol := "finite_element_hashes_" + name;
    var orderSymbol := "finite_element_deriv_order_" + name;
    ArrayDeclarationShape("uint64_t", hashSymbol, |hashes|, HashLiterals(hashes));
    ArrayDeclarationShape("int", orderSymbol, |hashes|, DerivOrderLiterals(orders));
  }

  /** Flags `[true, false, true]` give a three-element `bool` array
      holding `1, 0, 1`. The expected text is written as the same
      concatenation `ArrayDeclaration` builds, piece by piece, so that the
      proof only has to evaluate each piece rather than re-associate the
      whole string. */
  lemma ThreeCoefficients(name: string)
    ensures EnabledCoefficients(name, [true, false, true]).init
            == "bool" + " " + ("enabled_coefficients_" + name) + "[" + "3" + "] = {" + "1, 0, 1" + "};"
  {
    var symbol := "enabled_coefficients_" + name;
    var lits := CoefficientLiterals([true, false, true]);
    assert lits == ["1", "0", "1"];
    assert Join(", ", lits) == "1, 0, 1" by {
      assert lits[1..] == ["0", "1"];
      assert lits[1..][1..] == ["1"];
    }
    assert Decimal(3) == "3";
    assert EnabledCoefficients(name, [true, false, true]).init == ArrayDeclaration("bool", symbol, 3, lits);
  }
}

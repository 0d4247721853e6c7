/** The integral intermediate representation the generator consumes, and
    the options that select the scalar type. */
module IntegralIR {

  datatype Option<T> = None | Some(value: T)

  /** The four scalar types an FFCx compilation unit can be built for. */
  datatype ScalarType = Float32 | Float64 | Complex64 | Complex128
  {
    predicate IsComplex() { Complex64? || Complex128? }
  }

  /** `np.dtype(scalar_type).name`: the name of a complex type, and only
      of one, starts with "complex". */
  function TypeName(t: ScalarType): (s: string)
    ensures |s| >= 7
    ensures t.IsComplex() <==> s[..7] == "complex"
    ensures t.IsComplex() <==> s == "complex64" || s == "complex128"
  {
    match t
    case Float32 => assert "float32"[0] != 'c'; "float32"
    case Float64 => assert "float64"[0] != 'c'; "float64"
    case Complex64 => assert "complex64"[..7] == "complex"; "complex64"
    case Complex128 => assert "complex128"[..7] == "complex"; "complex128"
  }

  /** `dtype_to_scalar_dtype`: the real type used for geometry. */
  function GeometryType(t: ScalarType): (g: ScalarType)
    ensures !g.IsComplex()
    ensures !t.IsComplex() ==> g == t
  {
    match t
    case Float32 => Float32
    case Float64 => Float64
    case Complex64 => Float32
    case Complex128 => Float64
  }

  /** `dtype_to_c_type`: the C spelling of a scalar type. */
  function CTypeName(t: ScalarType): string
  {
    match t
    case Float32 => "float"
    case Float64 => "double"
    case Complex64 => "float _Complex"
    case Complex128 => "double _Complex"
  }

  /** The generator reads `options["scalar_type"]` and nothing else. */
  datatype Options = Options(scalarType: ScalarType)

  /** A quadrature rule as a key of the integrand. `key` stands for the
      points and weights that identify the rule; `isRuntime` marks a rule
      whose points are supplied when the kernel is called. */
  datatype Rule = Rule(key: nat, isRuntime: bool)

  /** A lowered integrand expression; the generator never looks inside. */
  datatype Expr = Expr(key: nat)

  /** One abstract statement produced by the kernel body generator. */
  datatype Statement = Statement(key: nat)

  type AbstractCode = seq<Statement>

  newtype UInt64 = x: int | 0 <= x < 0x1_0000_0000_0000_0000

  /** `ir.expression`: the integrand is the one thing the generator changes
      (it pops the runtime rule); everything else is read only. */
  class IntegralExpression {
    var integrand: map<Rule, Expr>
    const name: string
    const integralType: string
    const finiteElementHashes: seq<Option<UInt64>>
    const finiteElementDerivOrder: seq<int>
    const needsFacetPermutations: bool

    constructor (integrand: map<Rule, Expr>, name: string, integralType: string,
                 finiteElementHashes: seq<Option<UInt64>>, finiteElementDerivOrder: seq<int>,
                 needsFacetPermutations: bool)
      ensures this.integrand == integrand && this.name == name
      ensures this.integralType == integralType
      ensures this.finiteElementHashes == finiteElementHashes
      ensures this.finiteElementDerivOrder == finiteElementDerivOrder
      ensures this.needsFacetPermutations == needsFacetPermutations
    {
      this.integrand := integrand;
      this.name := name;
      this.integralType := integralType;
      this.finiteElementHashes := finiteElementHashes;
      this.finiteElementDerivOrder := finiteElementDerivOrder;
      this.needsFacetPermutations := needsFacetPermutations;
    }

    /** `integrand.pop(rule)`: a missing key would raise `KeyError`. */
    method Pop(rule: Rule) returns (e: Expr)
      requires rule in integrand
      modifies this
      ensures integrand == old(integrand) - {rule}
      ensures e == old(integrand)[rule]
    {
      e := integrand[rule];
      integrand := integrand - {rule};
    }
  }

  /** `ir`: the expression plus the per-integral metadata kept beside it. */
  datatype IntegralIR = IntegralIR(
    expression: IntegralExpression,
    enabledCoefficients: seq<bool>,
    coordinateElementHash: Option<UInt64>)
}

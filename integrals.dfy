/** The integral code generator: from one integral IR, a one-line
    declaration of the `ufcx_integral` struct and an implementation holding
    the static kernel, the runtime kernel and the struct definition.

    The kernel body generator, the C formatter and the three code templates
    are collaborators whose text the generator only passes along. They are
    parameters here, modelled as functions: deterministic, and without any
    effect on the backend or the IR. Line numbers in the comments below
    refer to ffcx/codegeneration/C/integrals.py. */
module Integrals {
  import opened Text
  import opened IntegralIR
  import opened RulePartition
  import opened Dispatch
  import opened Metadata

  /** The arguments `factory_tabulate` and `factory_runtime_tabulate` are
      filled with. */
  datatype KernelFields = KernelFields(
    factoryName: string, body: string, scalarType: string, geomType: string)

  /** The arguments `factory_integral` is filled with. */
  datatype DescriptorFields = DescriptorFields(
    factoryName: string,
    enabledCoefficients: string,
    enabledCoefficientsInit: string,
    numFiniteElements: nat,
    finiteElementHashes: string,
    finiteElementHashesInit: string,
    finiteElementDerivOrder: string,
    finiteElementDerivOrderInit: string,
    needsFacetPermutations: string,
    scalarType: string,
    geomType: string,
    coordinateElementHash: string,
    tabulateTensorFloat32: string,
    tabulateTensorFloat64: string,
    tabulateTensorComplex64: string,
    tabulateTensorComplex128: string,
    tabulateTensorRuntimeFloat32: string,
    tabulateTensorRuntimeFloat64: string)

  /** `IntegralGenerator.generate_runtime` (bound to the integrand it was
      built on), `IntegralGenerator.generate`, `CFormatter.c_format`, and
      the three templates' `format`. */
  datatype Collaborators = Collaborators(
    generateRuntime: (map<Rule, Expr>, Rule) -> AbstractCode,
    generateStatic: map<Rule, Expr> -> AbstractCode,
    cFormat: (AbstractCode, ScalarType) -> string,
    renderTabulate: KernelFields -> string,
    renderRuntimeTabulate: KernelFields -> string,
    renderIntegral: DescriptorFields -> string)

  /** The two `assert` statements of the generator. */
  datatype GenerationError = TooManyRuntimeRules | FiniteElementLengthMismatch

  /** What the generator returns, plus whether it printed the message that
      runtime kernels are not implemented for complex types. */
  datatype Generated = Generated(declaration: string, implementation: string, diagnostic: bool)

  datatype Result<T> = Ok(value: T) | Err(error: GenerationError)

  /** The `declaration` template filled with the integral's name. */
  function Declaration(factoryName: string): (d: string)
    ensures |d| == |factoryName| + 24
    ensures d[..22] == "\nextern ufcx_integral " && d[|d| - 2..] == ";\n"
    ensures d[22..|d| - 2] == factoryName
  {
    "\nextern ufcx_integral " + factoryName + ";\n"
  }

  // ---------------------------------------------------------------------
  // What the generator computes, stated as functions of its inputs.
  // ---------------------------------------------------------------------

  /** The runtime rule of an integrand that has exactly one. */
  ghost function TheRuntimeRule(integrand: map<Rule, Expr>): (r: Rule)
    requires |RuntimeRules(integrand)| == 1
    ensures r in integrand && r.isRuntime
  {
    var r :| r in RuntimeRules(integrand); r
  }

  /** The formatted runtime body: generated from the full integrand for its
      one runtime rule, and empty when there is none. */
  ghost function RuntimeBody(integrand: map<Rule, Expr>, t: ScalarType, c: Collaborators): string
  {
    if |RuntimeRules(integrand)| == 1
    then c.cFormat(c.generateRuntime(integrand, TheRuntimeRule(integrand)), t)
    else ""
  }

  /** The formatted static body: generated from what is left of the
      integrand, and empty when nothing is left. */
  function StaticBody(residual: map<Rule, Expr>, t: ScalarType, c: Collaborators): string
  {
    if |residual| > 0 then c.cFormat(c.generateStatic(residual), t) else ""
  }

  function Kernel(factoryName: string, body: string, t: ScalarType): KernelFields
  {
    KernelFields(factoryName, body, CTypeName(t), CTypeName(GeometryType(t)))
  }

  /** The struct's arguments, each field as the dispatch and metadata
      builders define it. A field can point at a kernel only when its body
      is non-empty, and a runtime field never does under a complex type. */
  function Descriptor(ir: IntegralIR, t: ScalarType, win32: bool,
                      body: string, bodyRuntime: string): (d: DescriptorFields)
    requires |ir.expression.finiteElementHashes| == |ir.expression.finiteElementDerivOrder|
    ensures d.factoryName == ir.expression.name
    ensures d.numFiniteElements == |ir.expression.finiteElementHashes|
    ensures |body| == 0 ==>
              && d.tabulateTensorFloat32 == NullField(Static(Float32))
              && d.tabulateTensorFloat64 == NullField(Static(Float64))
              && d.tabulateTensorComplex64 == DefaultInit(Static(Complex64), win32)
              && d.tabulateTensorComplex128 == DefaultInit(Static(Complex128), win32)
    ensures |bodyRuntime| == 0 || t.IsComplex() ==>
              && d.tabulateTensorRuntimeFloat32 == NullField(Runtime(Float32))
              && d.tabulateTensorRuntimeFloat64 == NullField(Runtime(Float64))
  {
    var e := ir.expression;
    var name := e.name;
    var coefficients := EnabledCoefficients(name, ir.enabledCoefficients);
    var elements := FiniteElementArrays(name, e.finiteElementHashes, e.finiteElementDerivOrder);
    IdleFieldIsDefault(Static(Float32), name, t, win32, body, bodyRuntime);
    IdleFieldIsDefault(Static(Float64), name, t, win32, body, bodyRuntime);
    IdleFieldIsDefault(Static(Complex64), name, t, win32, body, bodyRuntime);
    IdleFieldIsDefault(Static(Complex128), name, t, win32, body, bodyRuntime);
    IdleFieldIsDefault(Runtime(Float32), name, t, win32, body, bodyRuntime);
    IdleFieldIsDefault(Runtime(Float64), name, t, win32, body, bodyRuntime);
    DescriptorFields(
      name,
      coefficients.pointer, coefficients.init,
      |e.finiteElementHashes|,
      elements.0.pointer, elements.0.init,
      elements.1.pointer, elements.1.init,
      BoolText(e.needsFacetPermutations),
      CTypeName(t), CTypeName(GeometryType(t)),
      CoordinateElementHash(ir.coordinateElementHash),
      FieldInit(Static(Float32), name, t, win32, body, bodyRuntime),
      FieldInit(Static(Float64), name, t, win32, body, bodyRuntime),
      FieldInit(Static(Complex64), name, t, win32, body, bodyRuntime),
      FieldInit(Static(Complex128), name, t, win32, body, bodyRuntime),
      FieldInit(Runtime(Float32), name, t, win32, body, bodyRuntime),
      FieldInit(Runtime(Float64), name, t, win32, body, bodyRuntime))
  }

  /** The kernels, in order: the static one if there is a static body,
      then the runtime one if there is a runtime body. */
  function KernelParts(factoryName: string, t: ScalarType, c: Collaborators,
                       body: string, bodyRuntime: string): seq<string>
  {
    (if |body| > 0 then [c.renderTabulate(Kernel(factoryName, body, t))] else [])
    + (if |bodyRuntime| > 0 then [c.renderRuntimeTabulate(Kernel(factoryName, bodyRuntime, t))] else [])
  }

  /** The pieces of the implementation: the kernels, then the struct. */
  function ImplementationParts(ir: IntegralIR, t: ScalarType, win32: bool, c: Collaborators,
                               body: string, bodyRuntime: string): seq<string>
    requires |ir.expression.finiteElementHashes| == |ir.expression.finiteElementDerivOrder|
  {
    KernelParts(ir.expression.name, t, c, body, bodyRuntime)
    + [c.renderIntegral(Descriptor(ir, t, win32, body, bodyRuntime))]
  }

  /** The output once the bodies are known. */
  function AssembleSpec(ir: IntegralIR, t: ScalarType, win32: bool, c: Collaborators,
                        body: string, bodyRuntime: string): Result<Generated>
  {
    var e := ir.expression;
    if |e.finiteElementHashes| != |e.finiteElementDerivOrder| then Err(FiniteElementLengthMismatch)
    else Ok(Generated(Declaration(e.name),
                      Join("\n", ImplementationParts(ir, t, win32, c, body, bodyRuntime)),
                      |bodyRuntime| > 0 && t.IsComplex()))
  }

  /** The whole generator, for the integrand the IR held on entry. It fails
      exactly when one of its two assertions does, and otherwise declares
      the integral by its name and prints the diagnostic only for a single
      runtime rule under a complex type. */
  ghost function Expected(ir: IntegralIR, integrand: map<Rule, Expr>, options: Options,
                          win32: bool, c: Collaborators): (r: Result<Generated>)
    ensures r.Err? <==> |RuntimeRules(integrand)| >= 2
                        || |ir.expression.finiteElementHashes| != |ir.expression.finiteElementDerivOrder|
    ensures |RuntimeRules(integrand)| >= 2 ==> r == Err(TooManyRuntimeRules)
    ensures r.Ok? ==> r.value.declaration == Declaration(ir.expression.name)
    ensures r.Ok? && r.value.diagnostic ==>
              |RuntimeRules(integrand)| == 1 && options.scalarType.IsComplex()
  {
    var t := options.scalarType;
    if |RuntimeRules(integrand)| >= 2 then Err(TooManyRuntimeRules)
    else AssembleSpec(ir, t, win32, c, StaticBody(StaticPart(integrand), t, c), RuntimeBody(integrand, t, c))
  }

  // ---------------------------------------------------------------------
  // The generator.
  // ---------------------------------------------------------------------

  lemma SingletonMember(rules: set<Rule>, a: Rule, b: Rule)
    requires |rules| == 1 && a in rules && b in rules
    ensures a == b
  {
    var others := rules - {a};
    assert |others| == 0;
    assert b !in others;
  }

  /** Lines 42-80: count the runtime rules and give up if there are two or
      more; otherwise generate and format the runtime part, pop the runtime
      rule, and generate and format what is left if anything is. */
  method PartitionRules(expression: IntegralExpression, t: ScalarType, c: Collaborators)
    returns (ok: bool, body: string, bodyRuntime: string)
    modifies expression
    ensures ok <==> |RuntimeRules(old(expression.integrand))| < 2
    ensures !ok ==> expression.integrand == old(expression.integrand)
    ensures ok ==> expression.integrand == StaticPart(old(expression.integrand))
    ensures ok ==> bodyRuntime == RuntimeBody(old(expression.integrand), t, c)
    ensures ok ==> body == StaticBody(StaticPart(old(expression.integrand)), t, c)
  {
    var integrand := expression.integrand;
    var numRuntimeRules := CountRuntimeRules(integrand);
    if numRuntimeRules >= 2 {
      return false, "", "";
    }
    ok := true;

    var removeRules, runtimePart := CollectRuntimeRules(integrand, c.generateRuntime);
    RemoveRules(expression, removeRules);
    assert expression.integrand == StaticPart(integrand);

    bodyRuntime := "";
    if |removeRules| > 0 {
      SingletonMember(RuntimeRules(integrand), removeRules[|removeRules| - 1], TheRuntimeRule(integrand));
      bodyRuntime := c.cFormat(runtimePart, t);
    }

    body := "";
    if |expression.integrand| > 0 {
      var parts := c.generateStatic(expression.integrand);
      body := c.cFormat(parts, t);
    }
  }

  /** Lines 98-134: the static kernel is appended when the static body is
      non-empty, then the runtime kernel when the runtime body is. */
  method RenderKernels(factoryName: string, t: ScalarType, c: Collaborators,
                       body: string, bodyRuntime: string)
    returns (implementationParts: seq<string>)
    ensures implementationParts == KernelParts(factoryName, t, c, body, bodyRuntime)
  {
    implementationParts := [];
    if |body| > 0 {
      implementationParts := implementationParts + [c.renderTabulate(Kernel(factoryName, body, t))];
    }
    if |bodyRuntime| > 0 {
      implementationParts := implementationParts
                             + [c.renderRuntimeTabulate(Kernel(factoryName, bodyRuntime, t))];
    }
  }

  /** Lines 136-193: the metadata arrays and the scalar fields, with the
      six kernel pointers read from the dispatch table. */
  method BuildDescriptor(ir: IntegralIR, t: ScalarType, win32: bool, body: string, bodyRuntime: string,
                         code: map<DispatchSlot, string>)
    returns (descriptor: DescriptorFields)
    requires |ir.expression.finiteElementHashes| == |ir.expression.finiteElementDerivOrder|
    requires forall s :: InStruct(s) ==>
               s in code && code[s] == FieldInit(s, ir.expression.name, t, win32, body, bodyRuntime)
    ensures descriptor == Descriptor(ir, t, win32, body, bodyRuntime)
  {
    var e := ir.expression;
    var factoryName := e.name;
    var coefficients := EnabledCoefficients(factoryName, ir.enabledCoefficients);
    var elementHash := CoordinateElementHash(ir.coordinateElementHash);
    var numElements := |e.finiteElementHashes|;
    var elements := FiniteElementArrays(factoryName, e.finiteElementHashes, e.finiteElementDerivOrder);
    assert InStruct(Static(Float32)) && InStruct(Static(Float64));
    assert InStruct(Static(Complex64)) && InStruct(Static(Complex128));
    assert InStruct(Runtime(Float32)) && InStruct(Runtime(Float64));
    descriptor := DescriptorFields(
      factoryName,
      coefficients.pointer, coefficients.init,
      numElements,
      elements.0.pointer, elements.0.init,
      elements.1.pointer, elements.1.init,
      BoolText(e.needsFacetPermutations),
      CTypeName(t), CTypeName(GeometryType(t)),
      elementHash,
      code[Static(Float32)], code[Static(Float64)],
      code[Static(Complex64)], code[Static(Complex128)],
      code[Runtime(Float32)], code[Runtime(Float64)]);
  }

  /** Lines 82-199 once the bodies are known: fill the dispatch table,
      render the kernels, check the element lists, build the struct, and
      join the pieces with newlines. */
  method Assemble(ir: IntegralIR, t: ScalarType, win32: bool, c: Collaborators,
                  body: string, bodyRuntime: string)
    returns (r: Result<Generated>)
    ensures r == AssembleSpec(ir, t, win32, c, body, bodyRuntime)
  {
    var e := ir.expression;
    var declaration := Declaration(e.name);
    var code, diagnostic := BuildDispatch(e.name, t, win32, body, bodyRuntime);
    var implementationParts := RenderKernels(e.name, t, c, body, bodyRuntime);
    if |e.finiteElementHashes| != |e.finiteElementDerivOrder| {
      return Err(FiniteElementLengthMismatch);
    }
    var descriptor := BuildDescriptor(ir, t, win32, body, bodyRuntime, code);
    implementationParts := implementationParts + [c.renderIntegral(descriptor)];
    r := Ok(Generated(declaration, Join("\n", implementationParts), diagnostic));
  }

  /** `generator(ir, options)`. The platform test and the collaborators are
      parameters. On the first assertion the IR is untouched; past it the
      runtime rule has been popped, even when the second assertion fails. */
  method Generate(ir: IntegralIR, options: Options, win32: bool, c: Collaborators)
    returns (r: Result<Generated>)
    modifies ir.expression
    ensures r == Expected(ir, old(ir.expression.integrand), options, win32, c)
    ensures |RuntimeRules(old(ir.expression.integrand))| >= 2 ==>
              ir.expression.integrand == old(ir.expression.integrand)
    ensures |RuntimeRules(old(ir.expression.integrand))| < 2 ==>
              ir.expression.integrand == StaticPart(old(ir.expression.integrand))
  {
    var t := options.scalarType;
    var ok, body, bodyRuntime := PartitionRules(ir.expression, t, c);
    if !ok {
      return Err(TooManyRuntimeRules);
    }
    r := Assemble(ir, t, win32, c, body, bodyRuntime);
  }

  // ---------------------------------------------------------------------
  // Properties of the generator.
  // ---------------------------------------------------------------------

  /** Each body is formatted only when its part of the integrand exists: a
      runtime body needs a runtime rule, a static body a rule that is not
      runtime, and an integrand made of one runtime rule alone has no
      static body. */
  lemma {:induction false} BodyGating(integrand: map<Rule, Expr>, t: ScalarType, c: Collaborators)
    ensures RuntimeBody(integrand, t, c) != "" ==> |RuntimeRules(integrand)| == 1
    ensures StaticBody(StaticPart(integrand), t, c) != "" ==>
              exists r :: r in integrand && !r.isRuntime
    ensures |integrand| == 1 && |RuntimeRules(integrand)| == 1 ==>
              StaticBody(StaticPart(integrand), t, c) == ""
  {
    PartitionSizes(integrand);
    if StaticBody(StaticPart(integrand), t, c) != "" {
      var r :| r in StaticPart(integrand);
      assert r in integrand && !r.isRuntime;
    }
  }

  /** The implementation is the static kernel (if any), the runtime kernel
      (if any) and the struct, in that order. */
  lemma ImplementationLayout(ir: IntegralIR, t: ScalarType, win32: bool, c: Collaborators,
                             body: string, bodyRuntime: string)
    requires |ir.expression.finiteElementHashes| == |ir.expression.finiteElementDerivOrder|
    ensures var parts := ImplementationParts(ir, t, win32, c, body, bodyRuntime);
            && |parts| == 1 + (if |body| > 0 then 1 else 0) + (if |bodyRuntime| > 0 then 1 else 0)
            && parts[|parts| - 1] == c.renderIntegral(Descriptor(ir, t, win32, body, bodyRuntime))
            && (|body| > 0 ==> parts[0] == c.renderTabulate(Kernel(ir.expression.name, body, t)))
            && (|bodyRuntime| > 0 ==>
                  parts[|parts| - 2] == c.renderRuntimeTabulate(Kernel(ir.expression.name, bodyRuntime, t)))
  {
    var kernels := KernelParts(ir.expression.name, t, c, body, bodyRuntime);
    KernelLayout(ir.expression.name, t, c, body, bodyRuntime);
    AppendStruct(kernels, c.renderIntegral(Descriptor(ir, t, win32, body, bodyRuntime)));
  }

  /** Appending the struct after the kernels keeps the kernels in front. */
  lemma AppendStruct(kernels: seq<string>, struct: string)
    ensures var parts := kernels + [struct];
            && |parts| == |kernels| + 1 && parts[|parts| - 1] == struct
            && (|kernels| > 0 ==> parts[0] == kernels[0] && parts[|parts| - 2] == kernels[|kernels| - 1])
  {
  }

  /** The kernels: one per non-empty body, the static one first. */
  lemma KernelLayout(factoryName: string, t: ScalarType, c: Collaborators, body: string, bodyRuntime: string)
    ensures var kernels := KernelParts(factoryName, t, c, body, bodyRuntime);
            && |kernels| == (if |body| > 0 then 1 else 0) + (if |bodyRuntime| > 0 then 1 else 0)
            && (|body| > 0 ==> kernels[0] == c.renderTabulate(Kernel(factoryName, body, t)))
            && (|bodyRuntime| > 0 ==>
                  kernels[|kernels| - 1] == c.renderRuntimeTabulate(Kernel(factoryName, bodyRuntime, t)))
  {
  }

  /** Without a runtime rule nothing is popped, no runtime kernel is
      emitted, no diagnostic is printed and both runtime fields are NULL. */
  lemma {:induction false} NoRuntimeRule(ir: IntegralIR, integrand: map<Rule, Expr>, options: Options,
                                         win32: bool, c: Collaborators)
    requires |RuntimeRules(integrand)| == 0
    requires |ir.expression.finiteElementHashes| == |ir.expression.finiteElementDerivOrder|
    ensures StaticPart(integrand) == integrand
    ensures var t := options.scalarType;
            var body := StaticBody(integrand, t, c);
            && Expected(ir, integrand, options, win32, c) == AssembleSpec(ir, t, win32, c, body, "")
            && KernelParts(ir.expression.name, t, c, body, "")
               == (if |body| > 0 then [c.renderTabulate(Kernel(ir.expression.name, body, t))] else [])
            && Descriptor(ir, t, win32, body, "").tabulateTensorRuntimeFloat32 == NullField(Runtime(Float32))
            && Descriptor(ir, t, win32, body, "").tabulateTensorRuntimeFloat64 == NullField(Runtime(Float64))
            && !Expected(ir, integrand, options, win32, c).value.diagnostic
  {
    assert StaticPart(integrand).Keys == integrand.Keys;
  }

  /** A runtime rule under a complex scalar type, when its formatted
      runtime body is non-empty: the diagnostic is printed and both runtime
      fields stay NULL, yet the runtime kernel is still part of the
      implementation. An empty formatted body prints nothing and emits no
      runtime kernel. */
  lemma ComplexRuntime(ir: IntegralIR, integrand: map<Rule, Expr>, options: Options,
                       win32: bool, c: Collaborators)
    requires options.scalarType.IsComplex()
    requires |RuntimeRules(integrand)| == 1 && RuntimeBody(integrand, options.scalarType, c) != ""
    requires |ir.expression.finiteElementHashes| == |ir.expression.finiteElementDerivOrder|
    ensures var t := options.scalarType;
            var body := StaticBody(StaticPart(integrand), t, c);
            var bodyRuntime := RuntimeBody(integrand, t, c);
            var d := Descriptor(ir, t, win32, body, bodyRuntime);
            var parts := ImplementationParts(ir, t, win32, c, body, bodyRuntime);
            && Expected(ir, integrand, options, win32, c).Ok?
            && Expected(ir, integrand, options, win32, c).value.diagnostic
            && d.tabulateTensorRuntimeFloat32 == NullField(Runtime(Float32))
            && d.tabulateTensorRuntimeFloat64 == NullField(Runtime(Float64))
            && parts[|parts| - 2] == c.renderRuntimeTabulate(Kernel(ir.expression.name, bodyRuntime, t))
  {
    var t := options.scalarType;
    ImplementationLayout(ir, t, win32, c, StaticBody(StaticPart(integrand), t, c), RuntimeBody(integrand, t, c));
  }

  /** Running the generator again on the IR it has mutated gives the first
      run's assembly with an empty runtime body: the runtime kernel, the
      runtime dispatch field (now NULL) and the diagnostic are lost, while
      the static kernel, the static fields and the metadata are unchanged.
      When there was no runtime rule the second run reproduces the first
      exactly. */
  lemma {:induction false} RegenerateAfterMutation(ir: IntegralIR, integrand: map<Rule, Expr>,
                                                   options: Options, win32: bool, c: Collaborators)
    requires |RuntimeRules(integrand)| < 2
    ensures var t := options.scalarType;
            Expected(ir, StaticPart(integrand), options, win32, c)
            == AssembleSpec(ir, t, win32, c, StaticBody(StaticPart(integrand), t, c), "")
    ensures |RuntimeRules(integrand)| == 0 ==>
              Expected(ir, StaticPart(integrand), options, win32, c) == Expected(ir, integrand, options, win32, c)
  {
    StaticPartIdempotent(integrand);
    if |RuntimeRules(integrand)| == 0 {
      assert StaticPart(integrand).Keys == integrand.Keys;
    }
  }

  /** The struct's scalar fields: the element count is the hash list's
      length, the facet flag is spelt `true`/`false`, a missing coordinate
      hash is 0, and the element arrays are NULL exactly when there are no
      elements. */
  lemma DescriptorScalars(ir: IntegralIR, t: ScalarType, win32: bool, body: string, bodyRuntime: string)
    requires |ir.expression.finiteElementHashes| == |ir.expression.finiteElementDerivOrder|
    ensures var d := Descriptor(ir, t, win32, body, bodyRuntime);
            && d.numFiniteElements == |ir.expression.finiteElementHashes|
            && (d.needsFacetPermutations == "true" <==> ir.expression.needsFacetPermutations)
            && (ir.coordinateElementHash.None? ==> d.coordinateElementHash == "UINT64_C(0)")
            && (d.finiteElementHashes == Null <==> |ir.expression.finiteElementHashes| == 0)
            && (d.finiteElementDerivOrder == Null <==> |ir.expression.finiteElementHashes| == 0)
            && (d.enabledCoefficients == Null <==> |ir.enabledCoefficients| == 0)
            && (|ir.enabledCoefficients| > 0 ==>
                  d.enabledCoefficients == "enabled_coefficients_" + ir.expression.name)
            && (|ir.expression.finiteElementHashes| > 0 ==>
                  d.finiteElementHashes == "finite_element_hashes_" + ir.expression.name
                  && d.finiteElementDerivOrder == "finite_element_deriv_order_" + ir.expression.name)
  {
  }
}

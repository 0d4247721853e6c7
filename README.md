# FFCx integral code generator, modelled in Dafny

This project models `generator(ir, options)` from FFCx's C back end. The
function turns the IR of one finite-element integral into two pieces of C text:

- a one-line `extern ufcx_integral <name>;` declaration;
- an implementation that holds, in this order, the static `tabulate_tensor_<name>`
  kernel (if there is a static body), the `tabulate_tensor_runtime_<name>` kernel
  (if there is a runtime body) and the `ufcx_integral` struct.

The model follows the generator's four parts, one module each:

- `RulePartition` is the rule partitioner. It counts the integrand's runtime
  rules. It collects the runtime rules and generates the runtime part from
  them. It then pops them from the integrand, which is a field of the
  `IntegralExpression` class and is changed in place, as
  `ir.expression.integrand` is.
- `Dispatch` is the dispatch-field builder. It holds the generator's `code`
  table of the six `tabulate_tensor_*` initialisers, keyed by a closed
  enumeration of slots. It starts from the NULL and win32 defaults and
  overwrites the slot of the selected scalar type for each non-empty body.
- `Metadata` is the metadata-array builder. It renders the `bool`, `uint64_t`
  and `int` array initialisers and the scalar struct fields.
- `Integrals` is the assembler and the generator itself. `PartitionRules`
  drives the partitioner and stops if there are two or more runtime rules.
  `Generate` is the imperative method. `Expected` and the functions under it state what it
  computes, and the lemmas at the end of the file state what the output means.

`Text` holds `str.join` and decimal rendering. `IntegralIR` holds the data model.

The kernel body generator (`IntegralGenerator.generate` and
`generate_runtime`), `CFormatter.c_format` and the three templates the generator
fills are fields of a `Collaborators` value passed in. They are modelled as
functions, so each is deterministic and changes nothing; nothing else is
assumed about what they return. `generate_runtime` receives the integrand as it was before the
pop, because the source builds that generator before popping. `generate`
receives what is left, because the source builds a new generator after popping.

Points of the code worth noting:

- With a complex scalar type, a runtime rule and a non-empty formatted
  runtime body, the runtime kernel text is still appended to the implementation. Only the struct's runtime fields stay
  NULL, because the key written, `tabulate_tensor_runtime_complex64/128`, is one
  the struct never reads.
- The array declarations are arguments of the struct template
  (`factory_integral`). They are not separate pieces of the implementation.
- Array values are joined with `", "`, so `[true, false, true]` renders as
  `{1, 0, 1}`.
- An empty `enabled_coefficients` also gives no declaration and a `NULL`
  pointer, just as the element arrays do.

## Model

| member | source | states |
|---|---|---|
| `Text.Join` | ffcx/codegeneration/C/integrals.py:197 | joining no parts gives "", one part gives that part, and the length is the parts' total length plus one separator between each two parts |
| `Text.JoinCount` | ffcx/codegeneration/C/integrals.py:138 | joining n comma-free parts with ", " puts exactly n-1 commas in the result |
| `Text.Decimal` | ffcx/codegeneration/C/integrals.py:141 | `str(n)` of a natural number (the array sizes at lines 141, 159 and 165, the hashes at lines 155 and 186) is a non-empty string of digits with no leading zero |
| `Text.DecimalRoundTrip` | ffcx/codegeneration/C/integrals.py:163 | the decimal text of n reads back as n |
| `Text.DecimalInjective` | ffcx/codegeneration/C/integrals.py:155 | two different numbers never render as the same decimal text, so distinct hashes give distinct `UINT64_C` literals |
| `Text.IntText` | ffcx/codegeneration/C/integrals.py:163 | `str(i)` is the digits of i, with a leading '-' when i is negative; it reads back as i and holds no comma |
| `IntegralIR.TypeName` | ffcx/codegeneration/C/integrals.py:85 | `np.dtype(...).name` is "complex64" or "complex128" exactly for the two complex types, the membership test the generator makes at line 118, and only those names start with "complex" |
| `IntegralIR.GeometryType` | ffcx/codegeneration/C/integrals.py:111 | the geometry type is never complex, and a real scalar type is its own geometry type |
| `IntegralIR.IntegralExpression.Pop` | ffcx/codegeneration/C/integrals.py:61 | popping a present rule removes exactly that key and returns its value |
| `RulePartition.RuntimeRules` | ffcx/codegeneration/C/integrals.py:43-44 | a rule is a runtime rule iff it is a key of the integrand whose `is_runtime` is set |
| `RulePartition.StaticPart` | ffcx/codegeneration/C/integrals.py:53-61 | the residual integrand holds exactly the non-runtime keys, each with its value unchanged |
| `RulePartition.StaticPartIdempotent` | ffcx/codegeneration/C/integrals.py:59-68 | after removal no runtime rule is left, and removing again changes nothing |
| `RulePartition.PartitionSizes` | ffcx/codegeneration/C/integrals.py:42-74 | the static rules and the runtime rules together account for every key of the integrand |
| `RulePartition.CountRuntimeRules` | ffcx/codegeneration/C/integrals.py:42-45 | the counter loop ends with the number of runtime keys |
| `RulePartition.CollectRuntimeRules` | ffcx/codegeneration/C/integrals.py:49-57 | `remove_rules` lists each runtime rule exactly once and nothing else; `runtime_part` is what `generate_runtime` returned for the last of them, or [] if there is none |
| `RulePartition.RemoveRules` | ffcx/codegeneration/C/integrals.py:59-61 | after the pops the integrand has exactly the old keys minus the removed ones, with unchanged values |
| `Dispatch.StructSlotsAreInStruct` | ffcx/codegeneration/C/integrals.py:87-96 | the six slots that receive defaults (four static ones and the two real runtime ones) are exactly the slots `InStruct` admits; it fixes the key set of `DefaultDispatch` |
| `Dispatch.DefaultDispatch` | ffcx/codegeneration/C/integrals.py:87-96 | the table starts with the six struct slots; the two complex ones are "" on win32 and every other slot is `.<field> = NULL,` |
| `Dispatch.OverwriteStatic` | ffcx/codegeneration/C/integrals.py:98-103 | from the defaults, the static slot of the selected type points at the static kernel when the static body is non-empty, and every other struct slot keeps its default |
| `Dispatch.OverwriteRuntime` | ffcx/codegeneration/C/integrals.py:116-122 | the runtime slot of the selected type is written when the runtime body is non-empty (a slot outside the struct for a complex type); the diagnostic is printed iff the body is non-empty and the type complex |
| `Dispatch.BuildDispatch` | ffcx/codegeneration/C/integrals.py:83-123 | each struct slot ends up as `FieldInit` says; the table gains the slot `Runtime(t)` only when there is a runtime body; the diagnostic is printed iff there is a runtime body and the type is complex |
| `Dispatch.LiveFieldIsDistinct` | ffcx/codegeneration/C/integrals.py:87-103 | a live initialiser, a NULL initialiser and "" are three different strings |
| `Dispatch.TypeNameInjective` | ffcx/codegeneration/C/integrals.py:85 | the four dtype names are distinct |
| `Dispatch.FieldNameInjective` | ffcx/codegeneration/C/integrals.py:101-122 | distinct slots have distinct field names, so keying the table by slot equals keying it by name |
| `Dispatch.StaticDispatch` | ffcx/codegeneration/C/integrals.py:99-103 | a static field points at the kernel iff it is the selected type's and the static body is non-empty (on win32 too); otherwise it is "" for complex on win32 and NULL elsewhere |
| `Dispatch.RuntimeDispatch` | ffcx/codegeneration/C/integrals.py:117-123 | a runtime field of the struct points at the runtime kernel iff it is the selected type's and the runtime body is non-empty; under a complex type both are NULL |
| `Dispatch.AtMostOneLivePerKind` | ffcx/codegeneration/C/integrals.py:99-123 | two live static fields, or two live runtime fields, are the same field, and it is the selected type's |
| `Metadata.UInt64Literal` | ffcx/codegeneration/C/integrals.py:155 | `UINT64_C(v)` holds decimal digits that read back as v, and holds no comma |
| `Metadata.CoefficientLiterals` | ffcx/codegeneration/C/integrals.py:138 | one literal per flag; literal i is "1" iff flag i is true, else "0" |
| `Metadata.HashLiterals` | ffcx/codegeneration/C/integrals.py:154-156 | one literal per hash; literal i is `UINT64_C(h)` with h = 0 for a `None` entry |
| `Metadata.DerivOrderLiterals` | ffcx/codegeneration/C/integrals.py:163 | one literal per derivative order; literal i is `str(order i)` |
| `Metadata.ArrayDeclaration` | ffcx/codegeneration/C/integrals.py:141 | in `<ctype> <symbol>[<size>] = {<values>};` (lines 141, 159 and 165) the text before the `[` is the C type, a space and the symbol; the text between the brackets is all digits and reads back as the size; `] = {` follows it; and the values joined by ", " sit between `] = {` and the closing `};` |
| `Metadata.EnabledCoefficients` | ffcx/codegeneration/C/integrals.py:137-146 | the declaration is "" and the pointer is NULL exactly when there are no flags; otherwise the pointer is `enabled_coefficients_<name>` (line 143) |
| `Metadata.FiniteElementArrays` | ffcx/codegeneration/C/integrals.py:150-172 | both declarations are "" and both pointers are NULL exactly when there are no elements; otherwise the pointers are `finite_element_hashes_<name>` and `finite_element_deriv_order_<name>` (lines 161 and 167) |
| `Metadata.CoordinateElementHash` | ffcx/codegeneration/C/integrals.py:148 | a missing coordinate-element hash renders as `UINT64_C(0)`; the digits read back as the hash or 0 |
| `Metadata.BoolText` | ffcx/codegeneration/C/integrals.py:183 | the flag renders as "true" iff it is set, else "false" |
| `Metadata.ArrayDeclarationShape` | ffcx/codegeneration/C/integrals.py:137-172 | a declaration of n comma-free values has exactly n-1 commas, so C reads n initialisers, as many as its size says |
| `Metadata.EnabledCoefficientsCount` | ffcx/codegeneration/C/integrals.py:137-143 | the coefficient array lists as many initialisers as there are flags |
| `Metadata.FiniteElementArraysCount` | ffcx/codegeneration/C/integrals.py:153-167 | the hash array and the derivative-order array each list one initialiser per element |
| `Metadata.ThreeCoefficients` | ffcx/codegeneration/C/integrals.py:137-143 | flags [true, false, true] give `bool enabled_coefficients_<name>[3] = {1, 0, 1};` |
| `Integrals.Declaration` | ffcx/codegeneration/C/integrals.py:34 | the declaration is `\nextern ufcx_integral `, then the integral's name, then `;\n` |
| `Integrals.Descriptor` | ffcx/codegeneration/C/integrals.py:174-193 | the struct is named after the integral and counts one element per hash; with an empty static body every static field keeps its NULL or win32 default, and with an empty runtime body or a complex type both runtime fields are NULL |
| `Integrals.Expected` | ffcx/codegeneration/C/integrals.py:24-199 | the generator fails exactly when one of its two assertions fails (lines 47 and 151), the first taking precedence; otherwise the declaration is the template filled with the name, and the diagnostic is printed only for a single runtime rule under a complex type |
| `Integrals.PartitionRules` | ffcx/codegeneration/C/integrals.py:42-80 | it fails iff there are two or more runtime rules, and then leaves the integrand untouched; otherwise the integrand becomes its static part, the runtime body is formatted from the one runtime rule (else ""), and the static body from what is left (else "") |
| `Integrals.RenderKernels` | ffcx/codegeneration/C/integrals.py:98-134 | the parts are the static kernel if the static body is non-empty, then the runtime kernel if the runtime body is non-empty |
| `Integrals.BuildDescriptor` | ffcx/codegeneration/C/integrals.py:136-193 | the struct arguments read from the dispatch table are the ones the dispatch and metadata definitions give |
| `Integrals.Assemble` | ffcx/codegeneration/C/integrals.py:82-199 | it fails iff the hash and derivative-order lists differ in length; otherwise it returns the declaration, the newline join of kernels then struct, and the diagnostic flag |
| `Integrals.Generate` | ffcx/codegeneration/C/integrals.py:24-199 | the result is `Expected` of the integrand on entry; with two or more runtime rules it fails and the integrand is unchanged; otherwise the integrand ends as its static part, even when the length check then fails |
| `Integrals.BodyGating` | ffcx/codegeneration/C/integrals.py:63-80 | a runtime body needs exactly one runtime rule and a static body needs a non-runtime rule; a lone runtime rule gives no static body |
| `Integrals.KernelLayout` | ffcx/codegeneration/C/integrals.py:98-134 | there is one kernel per non-empty body, the static kernel first and the runtime kernel last |
| `Integrals.ImplementationLayout` | ffcx/codegeneration/C/integrals.py:107-197 | the implementation has one piece per non-empty body plus the struct; the static kernel comes first, the runtime kernel second to last, the struct last |
| `Integrals.NoRuntimeRule` | ffcx/codegeneration/C/integrals.py:53-65 | with no runtime rule nothing is popped, no runtime kernel is emitted, both runtime fields are NULL and no diagnostic is printed |
| `Integrals.ComplexRuntime` | ffcx/codegeneration/C/integrals.py:117-134 | a runtime rule under a complex type, when the formatted runtime body is non-empty, prints the diagnostic and leaves both runtime fields NULL, yet the runtime kernel is still emitted (an empty formatted body prints nothing and emits no kernel) |
| `Integrals.RegenerateAfterMutation` | ffcx/codegeneration/C/integrals.py:59-80 | running again on the popped IR gives the first run's assembly with an empty runtime body: the runtime kernel, the runtime dispatch field (now NULL) and the diagnostic are lost; the static kernel, the static fields and the metadata are unchanged; with no runtime rule the second run gives the same result as the first |
| `Integrals.DescriptorScalars` | ffcx/codegeneration/C/integrals.py:148-186 | `num_finite_elements` is the hash list's length; the facet flag is "true" iff set; a missing coordinate hash is `UINT64_C(0)`; each array pointer is NULL iff its list is empty, and otherwise names the array declared for the integral |

## Left out

- Logging (`logger.info`) is not modelled. The `print` of the complex-runtime
  message is modelled only as the `diagnostic` flag of the result. When the
  length check fails after that message, the message is lost with the result.
- `sys.platform.startswith("win32")` is the `win32` parameter.
- `IntegralGenerator`, `FFCXBackend` and `CFormatter` are not part of this
  model. Their calls are the `Collaborators` functions; beyond being
  functions of their arguments, nothing is known about what they return.
- `Collaborators`, `Expected`, `RegenerateAfterMutation`: the collaborators
  are assumed deterministic and without effect on the backend or the IR. In
  the source both `IntegralGenerator` objects share one `FFCXBackend`
  (integrals.py:37, 40, 68), so `generate` could depend on state that
  `generate_runtime` left in it, and a second call of the generator starts
  from a fresh backend. That `Expected` is a function of its inputs, and that
  a rerun reproduces the first run apart from its runtime part, hold only
  under this assumption.
- The text of the `factory_tabulate`, `factory_runtime_tabulate` and
  `factory_integral` templates is not part of this model. They are the
  renderers `renderTabulate`, `renderRuntimeTabulate` and `renderIntegral`,
  applied to the exact arguments the generator passes. The `factory` and
  `factory_runtime_quad` templates are not used by the generator. Only the
  `declaration` template is written out.
- `dtype_to_c_type` and `dtype_to_scalar_dtype` are not part of this model. The
  total maps `CTypeName` and `GeometryType` stand in for them. The C type names
  they use (`float`, `double`, `float _Complex`, `double _Complex`) only reach
  the opaque renderers.
- Python's `assert` statements are modelled as error results. Running Python
  with `-O` strips them; that case is not modelled.
- Iterating over the integrand's keys uses Python's insertion order; the loops
  here take the keys in an arbitrary order. Every ensures holds whatever the
  order. The one order-dependent value, the "last" runtime part, only matters
  with two or more runtime rules, which the first check rejects.
- Quadrature rules and expressions are abstract keys. Their points, weights and
  hashing are not modelled.
- Hashes are 64-bit unsigned integers (`UInt64`). Derivative orders are
  unbounded integers, as Python's `int` is.
- `IntegralIR.TypeName`: states only which names are the complex ones
  ("complex64", "complex128"). That the four names are distinct is proved
  separately in `Dispatch.TypeNameInjective`.

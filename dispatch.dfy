/** The scalar-type dispatch builder: the initialisers of the six
    `tabulate_tensor_*` fields of the `ufcx_integral` struct. Line numbers
    in the comments below refer to ffcx/codegeneration/C/integrals.py. */
module Dispatch {
  import opened IntegralIR

  /** A key of the generator's `code` table for a kernel pointer:
      `tabulate_tensor_<t>` or `tabulate_tensor_runtime_<t>`. */
  datatype DispatchSlot = Static(t: ScalarType) | Runtime(t: ScalarType)

  /** The struct has a runtime field only for the two real types; the slots
      `Runtime(Complex64)` and `Runtime(Complex128)` can be written to the
      table but are never read into the struct. */
  predicate InStruct(s: DispatchSlot)
  {
    s.Static? || !s.t.IsComplex()
  }

  const StructSlots: set<DispatchSlot> :=
    {Static(Float32), Static(Float64), Static(Complex64), Static(Complex128),
     Runtime(Float32), Runtime(Float64)}

  /** The six slots of the struct are exactly the slots `InStruct` admits;
      this gives the key set of the defaults in `DefaultDispatch`. */
  lemma {:induction false} StructSlotsAreInStruct(s: DispatchSlot)
    ensures s in StructSlots <==> InStruct(s)
  {
    match s.t
    case Float32 =>
    case Float64 =>
    case Complex64 =>
    case Complex128 =>
  }

  function Prefix(s: DispatchSlot): string
  {
    if s.Runtime? then "tabulate_tensor_runtime_" else "tabulate_tensor_"
  }

  /** The struct field (and table key) name of a slot. */
  function FieldName(s: DispatchSlot): string
  {
    Prefix(s) + TypeName(s.t)
  }

  /** The generated kernel a live slot points at. */
  function KernelSymbol(s: DispatchSlot, factoryName: string): string
  {
    Prefix(s) + factoryName
  }

  function NullField(s: DispatchSlot): string
  {
    "." + FieldName(s) + " = NULL,"
  }

  function LiveField(s: DispatchSlot, factoryName: string): string
  {
    "." + FieldName(s) + " = " + KernelSymbol(s, factoryName) + ","
  }

  /** A slot is live when it is named after the selected scalar type and
      the matching body (static or runtime) is non-empty. */
  predicate IsLive(s: DispatchSlot, t: ScalarType, staticBody: string, runtimeBody: string)
  {
    s.t == t && (if s.Static? then |staticBody| > 0 else |runtimeBody| > 0)
  }

  /** What each slot of the table should hold after the builder: the
      pointer to the generated kernel when live; nothing at all for a
      complex static field on win32; an explicit NULL otherwise. */
  function FieldInit(s: DispatchSlot, factoryName: string, t: ScalarType, win32: bool,
                     staticBody: string, runtimeBody: string): string
  {
    if IsLive(s, t, staticBody, runtimeBody) then LiveField(s, factoryName)
    else if s.Static? && s.t.IsComplex() && win32 then ""
    else NullField(s)
  }

  /** The initialiser a slot of the struct holds when nothing overwrites it. */
  function DefaultInit(s: DispatchSlot, win32: bool): string
  {
    if s.Static? && s.t.IsComplex() && win32 then "" else NullField(s)
  }

  /** A slot that is not live keeps its default. */
  lemma IdleFieldIsDefault(s: DispatchSlot, factoryName: string, t: ScalarType, win32: bool,
                           staticBody: string, runtimeBody: string)
    ensures !IsLive(s, t, staticBody, runtimeBody) ==>
              FieldInit(s, factoryName, t, win32, staticBody, runtimeBody) == DefaultInit(s, win32)
  {
  }

  /** Lines 87-96 of the generator: four NULL initialisers, and two for the
      complex fields that are empty on win32 and NULL elsewhere. */
  method DefaultDispatch(win32: bool) returns (code: map<DispatchSlot, string>)
    ensures forall s :: s in code <==> InStruct(s)
    ensures forall s :: InStruct(s) ==> code[s] == DefaultInit(s, win32)
  {
    code := map[];
    code := code[Static(Float32) := NullField(Static(Float32))];
    code := code[Static(Float64) := NullField(Static(Float64))];
    code := code[Runtime(Float32) := NullField(Runtime(Float32))];
    code := code[Runtime(Float64) := NullField(Runtime(Float64))];
    if win32 {
      code := code[Static(Complex64) := ""];
      code := code[Static(Complex128) := ""];
    } else {
      code := code[Static(Complex64) := NullField(Static(Complex64))];
      code := code[Static(Complex128) := NullField(Static(Complex128))];
    }
    forall s
      ensures s in code <==> InStruct(s)
      ensures InStruct(s) ==> code[s] == DefaultInit(s, win32)
    {
      StructSlotsAreInStruct(s);
    }
  }

  /** Lines 98-103 of the generator: with a non-empty static body, the
      static slot of the selected type points at the static kernel. */
  method OverwriteStatic(code: map<DispatchSlot, string>, factoryName: string, t: ScalarType,
                         win32: bool, staticBody: string)
    returns (r: map<DispatchSlot, string>)
    requires forall s :: s in code <==> InStruct(s)
    requires forall s :: InStruct(s) ==> code[s] == DefaultInit(s, win32)
    ensures forall s :: s in r <==> InStruct(s)
    ensures forall s :: InStruct(s) ==> r[s] == FieldInit(s, factoryName, t, win32, staticBody, "")
  {
    r := code;
    if |staticBody| > 0 {
      r := r[Static(t) := LiveField(Static(t), factoryName)];
    }
    forall s | InStruct(s)
      ensures r[s] == FieldInit(s, factoryName, t, win32, staticBody, "")
    {
      IdleFieldIsDefault(s, factoryName, t, win32, staticBody, "");
    }
  }

  /** Lines 116-122 of the generator: with a non-empty runtime body, the
      runtime slot of the selected type points at the runtime kernel, and a
      complex type prints a diagnostic and writes a slot the struct does
      not have. */
  method OverwriteRuntime(code: map<DispatchSlot, string>, factoryName: string, t: ScalarType,
                          win32: bool, staticBody: string, runtimeBody: string)
    returns (r: map<DispatchSlot, string>, diagnostic: bool)
    requires forall s :: s in code <==> InStruct(s)
    requires forall s :: InStruct(s) ==> code[s] == FieldInit(s, factoryName, t, win32, staticBody, "")
    ensures forall s :: InStruct(s) ==>
              s in r && r[s] == FieldInit(s, factoryName, t, win32, staticBody, runtimeBody)
    ensures forall s :: s in r <==> InStruct(s) || (|runtimeBody| > 0 && s == Runtime(t))
    ensures diagnostic <==> |runtimeBody| > 0 && t.IsComplex()
  {
    r, diagnostic := code, false;
    if |runtimeBody| > 0 {
      if t.IsComplex() {
        diagnostic := true;
      }
      r := r[Runtime(t) := LiveField(Runtime(t), factoryName)];
    }
  }

  /** Lines 83-123 of the generator: the table starts from the defaults,
      then the slot of the selected type is overwritten for each non-empty
      body. */
  method BuildDispatch(factoryName: string, t: ScalarType, win32: bool,
                       staticBody: string, runtimeBody: string)
    returns (code: map<DispatchSlot, string>, diagnostic: bool)
    ensures forall s :: InStruct(s) ==>
              s in code && code[s] == FieldInit(s, factoryName, t, win32, staticBody, runtimeBody)
    ensures forall s :: s in code <==> InStruct(s) || (|runtimeBody| > 0 && s == Runtime(t))
    ensures diagnostic <==> |runtimeBody| > 0 && t.IsComplex()
  {
    code := DefaultDispatch(win32);
    code := OverwriteStatic(code, factoryName, t, win32, staticBody);
    code, diagnostic := OverwriteRuntime(code, factoryName, t, win32, staticBody, runtimeBody);
  }

  /** A live initialiser, a NULL initialiser and the empty one are three
      different strings, so the struct text tells them apart. */
  lemma {:induction false} LiveFieldIsDistinct(s: DispatchSlot, factoryName: string)
    ensures LiveField(s, factoryName) != NullField(s)
    ensures LiveField(s, factoryName) != ""
    ensures NullField(s) != ""
  {
    var live := LiveField(s, factoryName);
    var nul := NullField(s);
    assert |live| == |FieldName(s)| + |Prefix(s)| + |factoryName| + 5;
    assert |nul| == |FieldName(s)| + 9;
    assert |Prefix(s)| >= 16;
  }

  /** `np.dtype(...).name` tells the four scalar types apart. */
  lemma TypeNameInjective(t1: ScalarType, t2: ScalarType)
    requires TypeName(t1) == TypeName(t2)
    ensures t1 == t2
  {
  }

  /** Distinct slots have distinct field names, so keying the table by slot
      is the same as keying it by the field-name strings. */
  lemma FieldNameInjective(s1: DispatchSlot, s2: DispatchSlot)
    requires FieldName(s1) == FieldName(s2)
    ensures s1 == s2
  {
    if s1.Runtime? == s2.Runtime? {
      var k := |Prefix(s1)|;
      assert FieldName(s1)[k..] == TypeName(s1.t);
      assert FieldName(s2)[k..] == TypeName(s2.t);
      TypeNameInjective(s1.t, s2.t);
    }
  }

  /** Static dispatch: a static field holds the pointer to the kernel
      exactly when it is the selected type's and the static body is
      non-empty; on win32 the complex fields are otherwise left out. */
  lemma StaticDispatch(s: DispatchSlot, factoryName: string, t: ScalarType, win32: bool,
                       staticBody: string, runtimeBody: string)
    requires s.Static?
    ensures FieldInit(s, factoryName, t, win32, staticBody, runtimeBody) == LiveField(s, factoryName)
            <==> s.t == t && |staticBody| > 0
    ensures !(s.t == t && |staticBody| > 0) ==>
              FieldInit(s, factoryName, t, win32, staticBody, runtimeBody)
              == (if s.t.IsComplex() && win32 then "" else NullField(s))
  {
    LiveFieldIsDistinct(s, factoryName);
  }

  /** Runtime dispatch: a runtime field of the struct holds the pointer
      exactly when it is the selected type's and the runtime body is
      non-empty; under a complex type both stay NULL whatever the body. */
  lemma RuntimeDispatch(s: DispatchSlot, factoryName: string, t: ScalarType, win32: bool,
                        staticBody: string, runtimeBody: string)
    requires s.Runtime? && InStruct(s)
    ensures FieldInit(s, factoryName, t, win32, staticBody, runtimeBody) == LiveField(s, factoryName)
            <==> s.t == t && |runtimeBody| > 0
    ensures t.IsComplex() ==>
              FieldInit(s, factoryName, t, win32, staticBody, runtimeBody) == NullField(s)
  {
    LiveFieldIsDistinct(s, factoryName);
  }

  /** At most one static and at most one runtime field of the struct are
      live, and each only for the selected type. */
  lemma AtMostOneLivePerKind(s1: DispatchSlot, s2: DispatchSlot, factoryName: string,
                             t: ScalarType, win32: bool, staticBody: string, runtimeBody: string)
    requires s1.Static? == s2.Static?
    requires FieldInit(s1, factoryName, t, win32, staticBody, runtimeBody) == LiveField(s1, factoryName)
    requires FieldInit(s2, factoryName, t, win32, staticBody, runtimeBody) == LiveField(s2, factoryName)
    ensures s1 == s2 && s1.t == t
  {
    LiveFieldIsDistinct(s1, factoryName);
    LiveFieldIsDistinct(s2, factoryName);
  }
}

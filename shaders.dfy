/** Metal function constants, pipeline keys and the pipeline cache,
    Sources/Core/PALFunctionConstant.swift, Sources/Core/ComputePipelineDef.swift
    and Sources/Core/MetalShaderManager.swift.

    Compiling a kernel is not modelled: a library is the set of function names
    it holds, and a pipeline records what it was built from. */
module Shaders {
  import opened Wrappers

  /** The Metal data type a constant is declared with. */
  datatype DataType = UShortType | IntType | BoolType | FloatType

  /** The value carried by a typed constant; its constructor plays the part of
      the Swift generic parameter `T`. */
  datatype Value = UShortValue(u: nat) | IntValue(i: int) | BoolValue(b: bool) | FloatValue(f: real)

  /** `FunctionConstantBase` (no value) or `FunctionConstant<T>`. */
  datatype FunctionConstant =
    | Base(index: int, dataType: DataType)
    | Typed(index: int, dataType: DataType, value: Value)

  /** `left.isEqual(to: right)`. The base class compares type and index; a typed
      constant first reads the other's value, which is a fatal error when the
      other is a base constant, and is unequal to a value of another type. */
  function IsEqual(left: FunctionConstant, right: FunctionConstant): Result<bool>
  {
    match left
    case Base(i, t) => Success(t == right.dataType && i == right.index)
    case Typed(i, t, v) =>
      match right
      case Base(_, _) => Failure("Not implemented")
      case Typed(_, _, w) => Success(t == right.dataType && i == right.index && v == w)
  }

  /** Between typed constants, `==` is plain equality of type, index and value,
      in both directions. */
  lemma TypedIsEqualIsEquality(left: FunctionConstant, right: FunctionConstant)
    requires left.Typed? && right.Typed?
    ensures IsEqual(left, right) == Success(left == right)
    ensures IsEqual(left, right) == IsEqual(right, left)
  {
  }

  /** `==` is not symmetric once a base constant takes part: a base constant
      equals any typed constant with its type and index, while the reverse
      comparison is a fatal error. */
  lemma BaseAgainstTyped(b: FunctionConstant, t: FunctionConstant)
    requires b.Base? && t.Typed?
    ensures IsEqual(b, t) == Success(b.dataType == t.dataType && b.index == t.index)
    ensures IsEqual(t, b).Failure?
  {
  }

  /** `==` on arrays of constants: unequal lengths are unequal, otherwise the
      elements are compared in order and the first unequal pair (or fatal
      error) decides. */
  function ConstantsEqual(left: seq<FunctionConstant>, right: seq<FunctionConstant>): Result<bool>
    decreases |left|
  {
    if |left| != |right| then Success(false)
    else if left == [] then Success(true)
    else
      match IsEqual(left[0], right[0])
      case Failure(e) => Failure(e)
      case Success(same) => if !same then Success(false) else ConstantsEqual(left[1..], right[1..])
  }

  predicate AllTyped(constants: seq<FunctionConstant>)
  {
    forall i :: 0 <= i < |constants| ==> constants[i].Typed?
  }

  /** Between arrays of typed constants, `==` is sequence equality. */
  lemma {:induction false} ConstantsEqualIsEquality(left: seq<FunctionConstant>, right: seq<FunctionConstant>)
    requires AllTyped(left) && AllTyped(right)
    ensures ConstantsEqual(left, right) == Success(left == right)
    decreases |left|
  {
    if |left| == |right| && left != [] {
      TypedIsEqualIsEquality(left[0], right[0]);
      ConstantsEqualIsEquality(left[1..], right[1..]);
      if left[0] == right[0] && left[1..] == right[1..] {
        assert left == [left[0]] + left[1..] && right == [right[0]] + right[1..];
      }
    }
  }

  /** `ComputePipelineDef`: a kernel name and its constants. */
  datatype PipelineDef = PipelineDef(kernel: string, constants: seq<FunctionConstant>)

  /** `constants ?? []`: the constants a request is keyed by. */
  function KeyConstants(constants: Option<seq<FunctionConstant>>): seq<FunctionConstant>
  {
    if constants.Some? then constants.value else []
  }

  /** `ComputePipelineDef.==`: same name and equal constants. */
  function DefEqual(left: PipelineDef, right: PipelineDef): Result<bool>
  {
    if left.kernel != right.kernel then Success(false)
    else ConstantsEqual(left.constants, right.constants)
  }

  /** `hash(into:)` feeds only the function name. */
  function Hash(def: PipelineDef): string
  {
    def.kernel
  }

  /** The key obeys the `Hashable` contract: keys that compare equal hash
      equally. Keys with the same name but different constants share a hash and
      are told apart by `==`. */
  lemma {:induction false} HashConsistent(left: PipelineDef, right: PipelineDef)
    requires DefEqual(left, right) == Success(true)
    ensures Hash(left) == Hash(right)
  {
  }

  /** Between keys with typed constants, `==` is equality of name and
      constants. */
  lemma DefEqualIsEquality(left: PipelineDef, right: PipelineDef)
    requires AllTyped(left.constants) && AllTyped(right.constants)
    ensures DefEqual(left, right) == Success(left == right)
  {
    ConstantsEqualIsEquality(left.constants, right.constants);
  }

  /** A compiled pipeline: the kernel, its constants, the library it came from
      and its position in the order of compilation. */
  datatype Pipeline = Pipeline(kernel: string, constants: seq<FunctionConstant>, fromMain: bool, serial: nat)

  /** The pipeline cache. Libraries are fixed at creation; `built` counts the
      pipelines compiled so far. */
  class MetalShaderManager {
    const benderLibrary: set<string>
    const mainLibrary: Option<set<string>>
    var pipelines: map<PipelineDef, Pipeline>
    var built: nat

    /** Each cached pipeline was built for its key, and no two keys share one
        compilation. */
    predicate Valid()
      reads this
    {
      && (forall d :: d in pipelines ==>
            pipelines[d].kernel == d.kernel && pipelines[d].constants == d.constants && pipelines[d].serial < built)
      && (forall d, e :: d in pipelines && e in pipelines && d != e ==> pipelines[d].serial != pipelines[e].serial)
    }

    constructor(benderLibrary: set<string>, mainLibrary: Option<set<string>>)
      ensures this.benderLibrary == benderLibrary && this.mainLibrary == mainLibrary
      ensures pipelines == map[] && built == 0 && Valid()
    {
      this.benderLibrary := benderLibrary;
      this.mainLibrary := mainLibrary;
      pipelines := map[];
      built := 0;
    }

    /** The library a request reads from: the app's own (force-unwrapped) or
        the framework's. */
    function Library(inMain: bool): set<string>
      requires inMain ==> mainLibrary.Some?
      reads this
    {
      if inMain then mainLibrary.value else benderLibrary
    }

    /** `getFunction(name:in:constants:)`. A cached pipeline is returned as is,
        whichever library is asked for, since the key holds only the name and the
        constants; otherwise the function is compiled from the chosen library and
        cached under the key; a missing function is a fatal error. */
    method GetFunction(name: string, inMain: bool, constants: Option<seq<FunctionConstant>>) returns (r: Result<Pipeline>)
      requires inMain ==> mainLibrary.Some?
      requires constants.Some? ==> AllTyped(constants.value)
      requires Valid()
      modifies this
      ensures Valid()
      ensures var def := PipelineDef(name, KeyConstants(constants));
        if def in old(pipelines) then
          r == Success(old(pipelines)[def]) && pipelines == old(pipelines) && built == old(built)
        else if name in Library(inMain) then
          && r == Success(Pipeline(name, def.constants, inMain, old(built)))
          && pipelines == old(pipelines)[def := r.value] && built == old(built) + 1
        else
          r.Failure? && pipelines == old(pipelines) && built == old(built)
    {
      var library := if inMain then mainLibrary.value else benderLibrary;
      var def := PipelineDef(name, KeyConstants(constants));
      if def in pipelines {
        return Success(pipelines[def]);
      }
      if name !in library {
        return Failure("Function " + name + " does not exist");
      }
      var pipeline := Pipeline(name, def.constants, inMain, built);
      pipelines := pipelines[def := pipeline];
      built := built + 1;
      r := Success(pipeline);
    }
  }

  /** Asking twice for the same kernel and constants gives the first pipeline
      back and compiles at most once, even when the second request names the
      other library. */
  method GetFunctionTwice(m: MetalShaderManager, name: string, firstInMain: bool, secondInMain: bool,
                          constants: Option<seq<FunctionConstant>>)
      returns (first: Result<Pipeline>, second: Result<Pipeline>)
    requires (firstInMain || secondInMain) ==> m.mainLibrary.Some?
    requires constants.Some? ==> AllTyped(constants.value)
    requires m.Valid()
    modifies m
    ensures first.Success? ==> second == first && (first.value.fromMain == firstInMain || first.value.serial < old(m.built))
    ensures m.built <= old(m.built) + 1
  {
    first := m.GetFunction(name, firstInMain, constants);
    second := m.GetFunction(name, secondInMain, constants);
  }
}

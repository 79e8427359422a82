/**
 * Parameter shapes for custom tools (functions.go): a map from parameter name to
 * its description and required flag, built by applying options in order.
 */
module Functions {
  import opened Base

  datatype FunctionProps = FunctionProps(description: string, required: bool)

  /** FunctionShape: parameter name to its properties. */
  type FunctionShape = map<string, FunctionProps>

  /**
   * An option passed to NewFunction, a Go `func(FunctionShape)`. `WithProperty` is the
   * closure `WithProperty(name, description, required)` returns, kept as its three
   * arguments; `Custom` is any other option a caller writes, given as what it leaves
   * in the shape; `NilOption` is a nil function value.
   */
  datatype PropertyOption =
    | WithProperty(name: string, description: string, required: bool)
    | Custom(update: FunctionShape -> FunctionShape)
    | NilOption

  /** Running an option on a shape: calling a nil option panics. */
  function Apply(opt: PropertyOption, shape: FunctionShape): Outcome<FunctionShape>
  {
    match opt
    case WithProperty(n, d, q) => Returned(shape[n := FunctionProps(d, q)])
    case Custom(f) => Returned(f(shape))
    case NilOption => Panicked(NilFunctionPanic)
  }

  /** A WithProperty option writes exactly its own entry and leaves every other entry as it was. */
  lemma ApplyWritesOneEntry(name: string, description: string, required: bool, shape: FunctionShape)
    ensures Apply(WithProperty(name, description, required), shape).Returned?
    ensures var s := Apply(WithProperty(name, description, required), shape).value;
      s.Keys == shape.Keys + {name}
      && s[name] == FunctionProps(description, required)
      && forall k :: k in shape && k != name ==> s[k] == shape[k]
  {
  }

  /** What applying `opts` in order to an empty map does: the shape, or the first panic. */
  function ApplyAll(opts: seq<PropertyOption>): Outcome<FunctionShape>
  {
    if opts == [] then Returned(map[])
    else
      match ApplyAll(opts[..|opts| - 1])
      case Returned(s) => Apply(opts[|opts| - 1], s)
      case Panicked(m) => Panicked(m)
  }

  /** Whether some option is nil. */
  predicate HasNil(opts: seq<PropertyOption>)
  {
    exists i :: 0 <= i < |opts| && opts[i].NilOption?
  }

  /** Applying options panics exactly when one of them is nil, and then with the nil-call panic. */
  lemma {:induction false} ApplyAllPanics(opts: seq<PropertyOption>)
    ensures ApplyAll(opts).Panicked? <==> HasNil(opts)
    ensures ApplyAll(opts).Panicked? ==> ApplyAll(opts).reason == NilFunctionPanic
  {
    if opts != [] {
      var init := opts[..|opts| - 1];
      ApplyAllPanics(init);
      if HasNil(init) {
        var i :| 0 <= i < |init| && init[i].NilOption?;
        assert opts[i].NilOption?;
      }
      if HasNil(opts) && !opts[|opts| - 1].NilOption? {
        var i :| 0 <= i < |opts| && opts[i].NilOption?;
        assert init[i].NilOption?;
      }
    }
  }

  /**
   * NewFunction: a fresh map, then every option in argument order. The result is the
   * options' combined effect; it panics exactly when an option is nil.
   */
  method NewFunction(properties: seq<PropertyOption>) returns (r: Outcome<FunctionShape>)
    ensures r == ApplyAll(properties)
    ensures r.Panicked? <==> HasNil(properties)
  {
    var shape: FunctionShape := map[];
    var i := 0;
    while i < |properties|
      invariant 0 <= i <= |properties|
      invariant ApplyAll(properties[..i]) == Returned(shape)
    {
      assert properties[..i + 1][..i] == properties[..i];
      var opt := properties[i];
      match opt {
        case WithProperty(n, d, q) =>
          shape := shape[n := FunctionProps(d, q)];
        case Custom(f) =>
          shape := f(shape);
        case NilOption =>
          ApplyAllPanics(properties[..i + 1]);
          PanicPersists(properties, i + 1);
          ApplyAllPanics(properties);
          return Panicked(NilFunctionPanic);
      }
      i := i + 1;
    }
    assert properties[..i] == properties;
    r := Returned(shape);
    ApplyAllPanics(properties);
  }

  /** A panic in a prefix is the panic of the whole list. */
  lemma {:induction false} PanicPersists(opts: seq<PropertyOption>, n: nat)
    requires n <= |opts|
    requires ApplyAll(opts[..n]).Panicked?
    ensures ApplyAll(opts) == ApplyAll(opts[..n])
    decreases |opts| - n
  {
    if n < |opts| {
      assert opts[..n + 1][..n] == opts[..n];
      PanicPersists(opts, n + 1);
    } else {
      assert opts[..n] == opts;
    }
  }

  /** Whether every option is one WithProperty built. */
  predicate PropertiesOnly(opts: seq<PropertyOption>)
  {
    forall i :: 0 <= i < |opts| ==> opts[i].WithProperty?
  }

  /** The names the WithProperty options mention. */
  function Names(opts: seq<PropertyOption>): set<string>
  {
    set i | 0 <= i < |opts| && opts[i].WithProperty? :: opts[i].name
  }

  /** With WithProperty options only: one entry per distinct name supplied (functions_test.go:35-69). */
  lemma {:induction false} ApplyAllKeys(opts: seq<PropertyOption>)
    requires PropertiesOnly(opts)
    ensures ApplyAll(opts).Returned? && ApplyAll(opts).value.Keys == Names(opts)
  {
    if opts != [] {
      var init := opts[..|opts| - 1];
      ApplyAllKeys(init);
      assert Names(opts) == Names(init) + {opts[|opts| - 1].name} by {
        forall n | n in Names(opts) ensures n in Names(init) + {opts[|opts| - 1].name} {
          var i :| 0 <= i < |opts| && opts[i].WithProperty? && opts[i].name == n;
          if i < |opts| - 1 { assert init[i].name == n; }
        }
        forall n | n in Names(init) ensures n in Names(opts) {
          var i :| 0 <= i < |init| && init[i].WithProperty? && init[i].name == n;
          assert opts[i].name == n;
        }
      }
    }
  }

  /**
   * The last option naming a parameter decides its entry: a later WithProperty option
   * with the same name overwrites an earlier one (functions_test.go:71-88), as long as
   * no nil or caller-written option runs after it.
   */
  lemma {:induction false} LastWriteWins(opts: seq<PropertyOption>, i: nat)
    requires i < |opts| && opts[i].WithProperty?
    requires !HasNil(opts[..i])
    requires forall j :: i < j < |opts| ==> opts[j].WithProperty? && opts[j].name != opts[i].name
    ensures ApplyAll(opts).Returned?
    ensures opts[i].name in ApplyAll(opts).value
    ensures ApplyAll(opts).value[opts[i].name] == FunctionProps(opts[i].description, opts[i].required)
  {
    var init := opts[..|opts| - 1];
    if i < |opts| - 1 {
      assert init[..i] == opts[..i];
      LastWriteWins(init, i);
    } else {
      assert init == opts[..i];
      ApplyAllPanics(init);
    }
  }

  /** With no options the shape is empty (functions_test.go:7-12). */
  lemma NoOptionsEmptyShape()
    ensures ApplyAll([]) == Returned(map[])
  {
  }

  /**
   * A caller-written option is not confined to one entry: one that clears the shape
   * undoes every earlier WithProperty option.
   */
  lemma {:induction false} CustomOptionMayClear(opts: seq<PropertyOption>)
    requires !HasNil(opts)
    ensures ApplyAll(opts + [Custom(s => map[])]) == Returned(map[])
  {
    ApplyAllPanics(opts);
    assert (opts + [Custom(s => map[])])[..|opts|] == opts;
  }
}

/** The class-name hook factory `makeClassNames` (site/src/hooks/emotion.ts).

    A hook built from a style configuration keeps a one-entry cache holding the
    theme, the hook inputs and the class names computed from them. Each render
    compares the active theme by reference and the inputs by value, and
    recomputes every class name when either differs. */
module Emotion {
  import opened Wrappers

  /** The Emotion theme object. Only its identity matters here: the hook
      compares themes with `!==`, which for objects is reference equality. */
  type Theme(==)

  /** A JavaScript primitive, the only kind of value a hook input may hold.
      Numbers are reals plus the two infinities and an explicit NaN; `-0` is
      not told apart from `0`, which `===` also treats as equal. */
  datatype Primitive =
    | Str(s: string)
    | Num(value: real)
    | Infinity(negative: bool)
    | NaN
    | Bool(b: bool)
    | Null
    | Undefined
    | Symbol(id: nat)
    | BigInt(i: int)

  /** The hook input record: property name to primitive. */
  type HookInput = map<string, Primitive>

  /** Reading a property: a missing key reads as `undefined`. This holds for
      own property names that `Object.prototype` does not define; a missing
      `valueOf`, `toString` and the like would read the inherited function. */
  function Lookup(inputs: HookInput, key: string): Primitive
  {
    if key in inputs then inputs[key] else Undefined
  }

  /** `Number.isNaN(v)`: true only for the number NaN. */
  predicate IsNaN(v: Primitive)
  {
    v.NaN?
  }

  /** `a === b` on primitives: false across types, numeric comparison for
      numbers (so NaN equals nothing), identity for symbols, contents for
      strings and bigints. */
  predicate StrictEquals(a: Primitive, b: Primitive)
    ensures StrictEquals(a, b) <==> a == b && !IsNaN(a)
  {
    match (a, b)
    case (Num(x), Num(y)) => x == y
    case (Infinity(n), Infinity(m)) => n == m
    case (Str(s), Str(t)) => s == t
    case (Bool(p), Bool(q)) => p == q
    case (Null, Null) => true
    case (Undefined, Undefined) => true
    case (Symbol(i), Symbol(j)) => i == j
    case (BigInt(i), BigInt(j)) => i == j
    case _ => false
  }

  /** One step of `didInputsChangeByValue`: two NaNs are skipped as equal,
      otherwise a change is any pair that is `!==`. In this model that is
      exactly structural inequality, which is what makes NaN vs NaN unchanged
      and NaN vs anything else changed. */
  predicate ValueChanged(cached: Primitive, next: Primitive)
    ensures ValueChanged(cached, next) <==> cached != next
  {
    !(IsNaN(cached) && IsNaN(next)) && !StrictEquals(cached, next)
  }

  /** Some key of the cached input record holds a value that the new inputs
      change. Only the cached record's keys are examined. */
  ghost predicate InputsChanged(cached: HookInput, next: HookInput)
  {
    exists key :: key in cached && ValueChanged(cached[key], Lookup(next, key))
  }

  /** `didInputsChangeByValue(inputs1, inputs2)`: walks the keys of `inputs1`
      and stops at the first one whose value changed. The source walks keys in
      the object's property order; the answer does not depend on the order, so this loop
      takes them in any order. */
  method DidInputsChangeByValue(inputs1: HookInput, inputs2: HookInput) returns (changed: bool)
    ensures changed <==> InputsChanged(inputs1, inputs2)
    ensures changed <==> exists key :: key in inputs1 && inputs1[key] != Lookup(inputs2, key)
  {
    var remaining := inputs1.Keys;
    while remaining != {}
      invariant remaining <= inputs1.Keys
      invariant forall key :: key in inputs1 && key !in remaining ==> !ValueChanged(inputs1[key], Lookup(inputs2, key))
      decreases remaining
    {
      var key :| key in remaining;
      var value1 := inputs1[key];
      var value2 := Lookup(inputs2, key);
      remaining := remaining - {key};
      if IsNaN(value1) && IsNaN(value2) {
        continue;
      }
      if !StrictEquals(value1, value2) {
        return true;
      }
    }
    return false;
  }

  /** A snapshot compared with itself, or with any record that reads the same
      under every key, reports no change in either direction. */
  lemma NoChangeAgainstCopy(inputs: HookInput, copy: HookInput)
    requires forall key :: Lookup(inputs, key) == Lookup(copy, key)
    ensures !InputsChanged(inputs, copy) && !InputsChanged(copy, inputs)
  {
  }

  /** A key present only in the new inputs is never looked at: adding or
      changing it cannot make `didInputsChangeByValue` report a change. */
  lemma KeysOnlyInNewInputsIgnored(cached: HookInput, next: HookInput, key: string, v: Primitive)
    requires key !in cached
    ensures InputsChanged(cached, next[key := v]) <==> InputsChanged(cached, next)
  {
  }

  /** When `didInputsChangeByValue` reports no change and the new inputs have no keys of
      their own, every property reads the same in both records (a cached
      `undefined` and a missing key read alike). */
  lemma UnchangedInputsReadAlike(cached: HookInput, next: HookInput)
    requires next.Keys <= cached.Keys
    requires !InputsChanged(cached, next)
    ensures forall key :: Lookup(next, key) == Lookup(cached, key)
  {
  }

  /** A value of the object passed to a configuration function. */
  datatype ArgValue =
    | Css                     // Emotion's `css` template producer
    | ThemeValue(theme: Theme)
    | Input(value: Primitive)

  /** A configuration function: from its argument object to a class name. */
  type ClassNameFunction = map<string, ArgValue> -> string

  type StyleConfig = map<string, ClassNameFunction>

  type StyleRecord = map<string, string>

  /** `{ css, theme, ...hookInput }`: the spread comes last, so a hook input
      named `css` or `theme` would shadow the producer or the theme. */
  function CssArgument(theme: Theme, hookInput: HookInput): (arg: map<string, ArgValue>)
    ensures arg.Keys == {"css", "theme"} + hookInput.Keys
    ensures forall key :: key in hookInput ==> arg[key] == Input(hookInput[key])
    ensures "css" !in hookInput ==> arg["css"] == Css
    ensures "theme" !in hookInput ==> arg["theme"] == ThemeValue(theme)
  {
    map["css" := Css, "theme" := ThemeValue(theme)] + map key | key in hookInput :: Input(hookInput[key])
  }

  /** Every class name of the configuration for this theme and these inputs. */
  function ComputedStyles(config: StyleConfig, theme: Theme, hookInput: HookInput): StyleRecord
  {
    map key | key in config :: config[key](CssArgument(theme, hookInput))
  }

  /** `computeNewStyles`: fills the result record key by key. */
  method ComputeNewStyles(config: StyleConfig, theme: Theme, hookInput: HookInput) returns (result: StyleRecord)
    ensures result.Keys == config.Keys
    ensures forall key :: key in config ==> result[key] == config[key](CssArgument(theme, hookInput))
    ensures result == ComputedStyles(config, theme, hookInput)
  {
    result := map[];
    var pending := config.Keys;
    while pending != {}
      invariant pending <= config.Keys
      invariant result.Keys == config.Keys - pending
      invariant forall key :: key in result ==> result[key] == config[key](CssArgument(theme, hookInput))
      decreases pending
    {
      var key :| key in pending;
      var configFunc := config[key];
      result := result[key := configFunc(CssArgument(theme, hookInput))];
      pending := pending - {key};
    }
  }

  /** The state held by `useState` at one call site. */
  datatype Cache = Cache(theme: Theme, inputs: HookInput, styles: StyleRecord)

  /** The cache invariant: the styles are the configuration applied to the
      cached theme and inputs. */
  ghost predicate Consistent(config: StyleConfig, cache: Cache)
  {
    cache.styles == ComputedStyles(config, cache.theme, cache.inputs)
  }

  /** The hook returned by `makeClassNames`, at one call site: the shared
      configuration and the call site's cache, absent before the first render. */
  class ClassNamesHook {
    const styleConfig: StyleConfig
    var cache: Option<Cache>

    ghost predicate Valid()
      reads this
    {
      cache.Some? ==> Consistent(styleConfig, cache.value)
    }

    /** `computeNewCacheValue()` for this render. */
    ghost function FreshCache(theme: Theme, hookInputs: HookInput): (c: Cache)
      ensures c.theme == theme && c.inputs == hookInputs
      ensures Consistent(styleConfig, c)
    {
      Cache(theme, hookInputs, ComputedStyles(styleConfig, theme, hookInputs))
    }

    /** `makeClassNames(styleConfig)`; the call site has not rendered yet. */
    constructor Make(styleConfig: StyleConfig)
      ensures Valid()
      ensures this.styleConfig == styleConfig && cache == None
    {
      this.styleConfig := styleConfig;
      cache := None;
    }

    /** One pass of `useClassNames`, as written: the first use initialises the
        cache; a changed theme or input schedules `setCache` with a fresh
        triple, yet the pass still returns the styles cached before it. */
    method Render(activeTheme: Theme, hookInputs: HookInput) returns (styles: StyleRecord, rerender: bool)
      requires Valid()
      modifies this
      ensures Valid()
      ensures old(cache).None? ==> !rerender && cache == Some(FreshCache(activeTheme, hookInputs)) && styles == cache.value.styles
      ensures old(cache).Some? ==>
        && styles == old(cache).value.styles
        && rerender == (old(cache).value.theme != activeTheme || InputsChanged(old(cache).value.inputs, hookInputs))
      ensures old(cache).Some? && rerender ==> cache == Some(FreshCache(activeTheme, hookInputs))
      ensures old(cache).Some? && !rerender ==> cache == old(cache)
    {
      if cache.None? {
        var initial := ComputeNewStyles(styleConfig, activeTheme, hookInputs);
        cache := Some(Cache(activeTheme, hookInputs, initial));
        NoChangeAgainstCopy(hookInputs, hookInputs);
      }
      var current := cache.value;
      rerender := current.theme != activeTheme;
      if !rerender {
        rerender := DidInputsChangeByValue(current.inputs, hookInputs);
      }
      if rerender {
        var newStyles := ComputeNewStyles(styleConfig, activeTheme, hookInputs);
        cache := Some(Cache(activeTheme, hookInputs, newStyles));
      }
      styles := current.styles;
    }

    /** `useClassNames(hookInputs)` as the component observes it. A `setCache`
        during render makes React discard that pass and render the component
        again at once; the second pass sees the fresh triple, finds nothing
        changed, and returns the fresh styles. The second pass gets the same
        theme and the same inputs as the first, as React requires of a pure
        render. So the committed result always belongs to the active theme,
        and the cache is replaced wholesale or not at all. */
    method UseClassNames(activeTheme: Theme, hookInputs: HookInput) returns (styles: StyleRecord)
      requires Valid()
      modifies this
      ensures Valid()
      ensures cache.Some? && cache.value.theme == activeTheme && styles == cache.value.styles
      ensures styles == ComputedStyles(styleConfig, activeTheme, cache.value.inputs)
      ensures !InputsChanged(cache.value.inputs, hookInputs)
      ensures old(cache).Some? && old(cache).value.theme == activeTheme && !InputsChanged(old(cache).value.inputs, hookInputs)
        ==> cache == old(cache)
      ensures old(cache).None? || old(cache).value.theme != activeTheme || InputsChanged(old(cache).value.inputs, hookInputs)
        ==> cache == Some(FreshCache(activeTheme, hookInputs))
    {
      var rerender;
      styles, rerender := Render(activeTheme, hookInputs);
      if rerender {
        NoChangeAgainstCopy(hookInputs, hookInputs);
        styles, rerender := Render(activeTheme, hookInputs);
        assert !rerender;
      }
    }
  }
}

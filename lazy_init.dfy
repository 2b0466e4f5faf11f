/**
 * Deferred imports (backend/core/lazy_init.py). A `LazyModule` resolves
 * its target on first use and then keeps answering with what it got.
 *
 * What Python's import machinery and the installed packages would answer
 * is an explicit `World` passed to each access: which dotted module names
 * import to which object, which attributes those objects carry, what
 * calling an object returns, and what an opaque custom import function
 * returns or raises at that moment. The locking is left out; only the
 * sequential load-once behaviour is modelled.
 */
module LazyInit {
  import opened Common

  /** A Python object: `None` or some other object, known by identity. */
  datatype Value = PyNone | Obj(id: nat)

  /** The state of the interpreter an access runs against. */
  datatype World = World(
    modules: map<string, Value>,          // what `importlib.import_module(name)` returns
    attrs: map<(Value, string), Value>,   // what `getattr(obj, name)` returns
    calls: map<Value, Value>,             // what calling an object returns (arguments are not modelled)
    custom: Result<Value, string>)        // what an opaque `import_fn()` returns, or the exception it raises

  /** The import functions the source passes as `import_fn`. */
  datatype ImportFn =
    | ReturnsNone                                  // `_import_llm_router`: a placeholder returning None
    | ImportOrNone(pkg: string, attr: Option<string>)
      // `try: import module` (or `from module import attr`) `except ImportError: return None`
    | Opaque                                       // any other callable: its outcome is `World.custom`

  const ModuleNotFound: string := "ModuleNotFoundError"
  const AttributeError: string := "AttributeError"
  const TypeError: string := "TypeError"

  /** `importlib.import_module(name)` */
  function ImportModule(w: World, name: string): Result<Value, string> {
    if name in w.modules then Ok(w.modules[name]) else Err(ModuleNotFound)
  }

  /** `getattr(obj, name)`; `None` has none of the attributes a module would. */
  function GetAttr(w: World, obj: Value, name: string): Result<Value, string> {
    if obj != PyNone && (obj, name) in w.attrs then Ok(w.attrs[(obj, name)]) else Err(AttributeError)
  }

  /** `obj(*args, **kwargs)`: `None` and other non-callables raise TypeError. */
  function CallValue(w: World, obj: Value): Result<Value, string> {
    if obj != PyNone && obj in w.calls then Ok(w.calls[obj]) else Err(TypeError)
  }

  /** Calling one of the import functions; the source's own ones never raise. */
  function RunImportFn(w: World, f: ImportFn): Result<Value, string> {
    match f
    case ReturnsNone => Ok(PyNone)
    case ImportOrNone(m, attr) =>
      var imported := ImportModule(w, m);
      if imported.Err? then Ok(PyNone)
      else if attr.None? then imported
      else
        // `from m import attr` raises ImportError when `attr` is missing
        var got := GetAttr(w, imported.value, attr.value);
        if got.Err? then Ok(PyNone) else got
    case Opaque => w.custom
  }

  /**
   * The body of `_load` once it has decided to import: the custom function
   * if there is one, otherwise importlib on the name, where a dotted name
   * imports everything before the last dot and takes the last segment as
   * an attribute.
   */
  function Resolve(w: World, name: string, importFn: Option<ImportFn>): Result<Value, string> {
    if importFn.Some? then RunImportFn(w, importFn.value)
    else
      var parts := Split(name, '.');
      if |parts| == 1 then ImportModule(w, name)
      else
        var package := ImportModule(w, Join(parts[..|parts| - 1], '.'));
        if package.Err? then package else GetAttr(w, package.value, parts[|parts| - 1])
  }

  /** A name without a dot is imported as it is. */
  lemma SimpleName(w: World, name: string)
    requires '.' !in name
    ensures Resolve(w, name, None) == ImportModule(w, name)
  {
    SplitNoSep(name, '.');
  }

  /** `pkg.last` imports `pkg` (itself possibly dotted) and reads its attribute `last`. */
  lemma DottedName(w: World, pkg: string, last: string)
    requires '.' !in last
    ensures var package := ImportModule(w, pkg);
            Resolve(w, pkg + "." + last, None)
            == if package.Err? then package else GetAttr(w, package.value, last)
  {
    var parts := Split(pkg, '.');
    SplitParts(pkg, '.');
    JoinSplit(pkg, '.');
    JoinSnoc(parts, last, '.');
    var all := parts + [last];
    forall k | 0 <= k < |all| ensures '.' !in all[k] {
      if k < |parts| { assert all[k] == parts[k]; }
    }
    SplitJoin(all, '.');
    assert Split(pkg + "." + last, '.') == all;
    assert all[..|all| - 1] == parts;
  }

  /** A custom import function is used instead of importlib, whatever the name. */
  lemma CustomFunctionWins(w: World, name: string, f: ImportFn)
    ensures Resolve(w, name, Some(f)) == RunImportFn(w, f)
  {
  }

  /** The source's own import functions never raise: a missing package yields None. */
  lemma OwnImportFnsNeverRaise(w: World, m: string, attr: Option<string>)
    ensures Resolve(w, "", Some(ReturnsNone)) == Ok(PyNone)
    ensures Resolve(w, "", Some(ImportOrNone(m, attr))).Ok?
    ensures m !in w.modules ==> Resolve(w, "", Some(ImportOrNone(m, attr))) == Ok(PyNone)
  {
  }

  /** `LazyModule`: the target, the optional import function, and the cache. */
  class LazyModule {
    const moduleName: string
    const importFn: Option<ImportFn>
    var cached: Value
    var loaded: bool

    /** A new loader has loaded nothing. */
    constructor(name: string, f: Option<ImportFn>)
      ensures moduleName == name && importFn == f
      ensures !IsLoaded() && cached == PyNone
    {
      moduleName := name;
      importFn := f;
      cached := PyNone;
      loaded := false;
    }

    /** `is_loaded`: a load has succeeded, so the next access returns the cache. */
    predicate IsLoaded()
      reads this
      ensures IsLoaded() <==> loaded
    {
      loaded
    }

    /**
     * `_load`: once loaded, the cached object is returned whatever the
     * world now says, and nothing changes. Otherwise the target is
     * resolved; success caches it (None included), failure raises and
     * leaves the loader unloaded, so the next access tries again.
     */
    method Load(w: World) returns (r: Result<Value, string>)
      modifies this
      ensures old(loaded) ==> r == Ok(old(cached)) && loaded && cached == old(cached)
      ensures !old(loaded) ==> r == Resolve(w, moduleName, importFn)
      ensures !old(loaded) && r.Ok? ==> loaded && cached == r.value
      ensures !old(loaded) && r.Err? ==> !loaded && cached == old(cached)
    {
      if loaded {
        return Ok(cached);
      }
      if importFn.Some? {
        r := RunImportFn(w, importFn.value);
      } else {
        var parts := Split(moduleName, '.');
        if |parts| == 1 {
          r := ImportModule(w, moduleName);
        } else {
          var package := ImportModule(w, Join(parts[..|parts| - 1], '.'));
          if package.Err? {
            return package;
          }
          r := GetAttr(w, package.value, parts[|parts| - 1]);
        }
      }
      if r.Err? {
        return r;
      }
      cached := r.value;
      loaded := true;
    }

    /** `__getattr__`: load, then read the attribute from what was loaded. */
    method GetAttribute(w: World, name: string) returns (r: Result<Value, string>)
      modifies this
      ensures old(loaded) ==> r == GetAttr(w, old(cached), name) && loaded && cached == old(cached)
      ensures !old(loaded) ==> var got := Resolve(w, moduleName, importFn);
                               && (got.Err? ==> r == got && !loaded)
                               && (got.Ok? ==> r == GetAttr(w, got.value, name) && loaded && cached == got.value)
    {
      var m := Load(w);
      if m.Err? {
        return m;
      }
      r := GetAttr(w, m.value, name);
    }

    /** `__call__`: load, then call what was loaded. */
    method Call(w: World) returns (r: Result<Value, string>)
      modifies this
      ensures old(loaded) ==> r == CallValue(w, old(cached)) && loaded && cached == old(cached)
      ensures !old(loaded) ==> var got := Resolve(w, moduleName, importFn);
                               && (got.Err? ==> r == got && !loaded)
                               && (got.Ok? ==> r == CallValue(w, got.value) && loaded && cached == got.value)
    {
      var m := Load(w);
      if m.Err? {
        return m;
      }
      r := CallValue(w, m.value);
    }
  }

  /** `lazy_import`: a fresh, unloaded loader. */
  method LazyImport(name: string, f: Option<ImportFn>) returns (m: LazyModule)
    ensures fresh(m) && m.moduleName == name && m.importFn == f && !m.IsLoaded()
  {
    m := new LazyModule(name, f);
  }

  /**
   * `embeddings_lazy`: loaded before `sentence_transformers` is installed,
   * it caches None and keeps answering None after installation.
   */
  method EmbeddingsStayNone(before: World, after: World) returns (first: Result<Value, string>, second: Result<Value, string>)
    requires "sentence_transformers" !in before.modules
    ensures first == Ok(PyNone) && second == Ok(PyNone)
  {
    var embeddings := LazyImport("embeddings", Some(ImportOrNone("sentence_transformers", Some("SentenceTransformer"))));
    first := embeddings.Load(before);
    second := embeddings.Load(after);
  }
}

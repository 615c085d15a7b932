# horse-with-no-namespace, modelled in Dafny

horse-with-no-namespace makes packages declared as namespaces through
`pkg_resources.declare_namespace` work alongside PEP 420 implicit namespace
packages. Python's `site` module runs its `apply()` at start-up, possibly
more than once. Each call does three things:

1. It shows a notice, once per process.
2. If pkg_resources is installed, it captures the original `declare_namespace` once and installs a wrapper. The wrapper builds `__path__` with `pkgutil.extend_path`.
3. It deletes from `sys.modules` every in-scope module that was loaded by the implicit-namespace loader (`NamespaceLoader`). A later import then rebuilds it with a complete `__path__`.

An optional environment variable, `HORSE_WITH_NO_NAMESPACES`, holds a
comma-separated list of package prefixes. When it is set, eviction is
limited to those prefixes and their dotted sub-packages. The wrapper uses a
stricter test, so under a limit it extends `__path__` for far fewer
packages; under a list of top-level names it extends none (see Findings).

The project has three modules:

- `Limit` (limit.dfy) parses the variable. It models Python's `str.split`, and `Join` is its proved inverse.
- `Scope` (scope.dfy) holds the two scope tests as the code writes them: the eviction filter and the wrapper's dispatch. It also states independently, as `Covered`, which names a limit entry covers: the entry itself and its dotted sub-packages.
- `Patch` (patch.dfy) holds the process state as a class, `Process`. `Process.Apply` is `apply()`, and its eviction loop runs over a snapshot of the registry. Its new state is specified by the functions `PatchHelper` (pkg_resources) and `Evict` (the registry), and lemmas prove the capture-once and idempotence properties about those functions. `DeclareNamespace` is the installed wrapper; its route is specified by `Scope.Dispatch`. `Process.CallDeclareNamespace` runs the installed wrapper with the capture the process holds.

Two behaviours of the code differ from a natural reading. The model follows the code in both:

- A natural reading is that an empty value means no limit. In the code, any set value, including the empty string, gives an active limit. An empty value or a trailing comma puts the prefix `""` into the limit, and that prefix covers no ordinary package.
- One would expect the wrapper to use the same scope test as the eviction loop (lines 89-91). The code uses a stricter test; see Findings.

## Model

| member | source | states |
|---|---|---|
| `Limit.Split` | src/horse_with_no_namespace/__init__.py:23 | `str.split(",")` always yields at least one segment, and no segment contains the separator |
| `Limit.JoinSplit` | src/horse_with_no_namespace/__init__.py:23 | joining the segments of a split with the separator gives back the original value |
| `Limit.SplitJoin` | src/horse_with_no_namespace/__init__.py:23 | splitting a join of separator-free segments gives back exactly those segments |
| `Limit.ParseLimit` | src/horse_with_no_namespace/__init__.py:21-23 | an unset variable gives no limit; any set value, even `""`, gives a non-empty, and so active, set of comma-free prefixes; a value without a comma limits to exactly itself |
| `Limit.ParseLimitOfList` | src/horse_with_no_namespace/__init__.py:21-23 | a comma-separated list of comma-free names parses to exactly the set of those names |
| `Limit.ParseLimitEmptyPieces` | src/horse_with_no_namespace/__init__.py:21-23 | an empty value parses to `{""}`, and a trailing comma adds `""` to the limit |
| `Scope.OutOfScope` | src/horse_with_no_namespace/__init__.py:88-93 | the eviction loop's skip test: it skips nothing without an active limit and never skips a name listed in the limit |
| `Scope.OutOfScopeIsNotCovered` | src/horse_with_no_namespace/__init__.py:88-93 | the eviction loop skips a name exactly when a limit is active and no entry equals the name or is followed in it by a dot |
| `Scope.Dispatch` | src/horse_with_no_namespace/__init__.py:60-68 | with no active limit the wrapper never delegates; with one it extends `__path__` only if the name is a limit entry and also starts with some `entry + "."`; whatever it extends is in the eviction scope |
| `Scope.DispatchDelegatesAllForFlatLimit` | src/horse_with_no_namespace/__init__.py:60-68 | when no limit entry is a dotted extension of another, the wrapper delegates every name |
| `Scope.DispatchDelegatesCoveredSubpackage` | src/horse_with_no_namespace/__init__.py:61-67 | with limit `{"acme"}`, `"acme.widgets"` is in scope for eviction, yet the wrapper delegates it |
| `Scope.DispatchIntended` | src/horse_with_no_namespace/__init__.py:61-67 | corrected wrapper test: delegates exactly the names the eviction filter at lines 89-91 skips, so it extends `__path__` exactly for the covered names, a superset of what the as-written test extends |
| `Scope.DispatchIntendedOnExample` | src/horse_with_no_namespace/__init__.py:61-68 | with limit `{"acme"}`, the corrected test extends `"acme"` and `"acme.widgets"` and delegates `"other.thing"` |
| `Scope.EmptyPrefixCoversNoPackage` | src/horse_with_no_namespace/__init__.py:21-23 | with the variable set to `""`, every non-empty name not starting with `.` is out of scope |
| `Patch.Evict` | src/horse_with_no_namespace/__init__.py:87-103 | the registry after the eviction loop: no entry added, kept entries unchanged, every module not loaded by `NamespaceLoader` and every name the limit excludes kept |
| `Patch.EvictDeletesExactlyStale` | src/horse_with_no_namespace/__init__.py:87-103 | eviction adds no entry and keeps every surviving entry's exact module; it deletes an entry exactly when the name is in scope and its loader's class name is `NamespaceLoader` |
| `Patch.EvictIdempotent` | src/horse_with_no_namespace/__init__.py:87-103 | running eviction on its own output deletes nothing more |
| `Patch.PatchHelper` | src/horse_with_no_namespace/__init__.py:47-57 | the pkg_resources step: absent stays absent; present ends with the wrapper installed and some function captured |
| `Patch.PatchHelperCapturesOnce` | src/horse_with_no_namespace/__init__.py:47-57 | for every state: an absent pkg_resources stays absent; otherwise the wrapper is installed and `_original_declare_namespace` keeps an existing capture or, failing one, takes the current `declare_namespace` |
| `Patch.PatchHelperKeepsConsistent` | src/horse_with_no_namespace/__init__.py:54-57 | from a state where no capture is the wrapper and an installed wrapper has a capture, patching never captures the wrapper and keeps that state |
| `Patch.PatchHelperIdempotent` | src/horse_with_no_namespace/__init__.py:54-57 | patching again leaves pkg_resources as one patch left it, so the first capture survives any number of calls |
| `Patch.DeclareNamespace` | src/horse_with_no_namespace/__init__.py:59-81 | a delegated call goes to the captured original, or raises when none is captured; otherwise `__path__`, set to `[]` first if missing, becomes `extend_path(old __path__, name)`, and no other local changes |
| `Patch.Process.constructor` | src/horse_with_no_namespace/__init__.py:19-23 | at import, the notice flag is false, the limit is the parsed variable, pkg_resources (if installed) holds its own `declare_namespace` and no capture, and the state is consistent |
| `Patch.Process.Apply` | src/horse_with_no_namespace/__init__.py:37-103 | the notice is shown exactly when it was not shown before, and the flag ends true; pkg_resources ends as `PatchHelper` of its old state; the registry ends as `Evict` of its old contents; a consistent state stays consistent |
| `Patch.Process.CallDeclareNamespace` | src/horse_with_no_namespace/__init__.py:59-83 | once the wrapper is installed in a consistent state, a call never raises for a missing capture and never delegates to a wrapper; a delegated call goes to the capture; otherwise `__path__` becomes `extend_path(old __path__, name)` and no other local changes |
| `Patch.ApplyTwice` | src/horse_with_no_namespace/__init__.py:37-44 | two `apply()` calls show at most one notice and leave pkg_resources and the registry as one call does |
| `Patch.StartupThenDeclare` | src/horse_with_no_namespace/__init__.py:37-83 | after import and two `apply()` calls, a delegated `declare_namespace` call reaches pkg_resources' own first-observed function, never a wrapper |

## Findings

| source | as written | input that shows it | evidently intended | confidence | as-written member | corrected member |
|---|---|---|---|---|---|---|
| src/horse_with_no_namespace/__init__.py:61-67 | the wrapper delegates unless the name starts with some `prefix + "."` AND is itself in the limit (`not any(...) or name not in limit`) | limit `{"acme"}`, name `"acme.widgets"`: the wrapper delegates it, though eviction treats it as in scope | delegate only names the eviction filter skips (`not any(...) and name not in limit`) | high; not executed | `Scope.DispatchDelegatesCoveredSubpackage` | `Scope.DispatchIntended` |

`Patch.DeclareNamespace` keeps the as-written test `Scope.Dispatch`, because
it models what the installed wrapper does. The corrected test is the partner
the as-written one is measured against: `Scope.Dispatch` proves that
everything it extends, the corrected test also extends.

## Left out

- The notice text, the messages naming the limit, and every other write to stderr (lines 25-34, 43, 71-75, 96-100) are console output. `Apply` only reports whether the notice was shown.
- `os.getenv` is not modelled. The variable's value is an `Option<string>` given to the constructor.
- Importing pkg_resources is not modelled. Whether it is installed is `Process.helper` being `Some` or `None`.
- `Patch.Process.Apply`: the registry contract `modules == Evict(limit, old(modules))` holds only for calls on which `import pkg_resources` (line 48) imports nothing new, that is, when pkg_resources is absent or already imported. On the call that first imports it, the import adds entries to `sys.modules` before the loop (lines 87-103) takes its snapshot: pkg_resources itself, its own imports, and any namespace packages its unpatched `declare_namespace` creates while loading. The model does not capture those entries.
- `Patch.Process.Apply`: an exception other than ImportError raised while importing pkg_resources escapes `apply()` and skips the patch and the eviction. An example is its deprecation warning under `-W error`. The model does not capture that exit.
- `sys._getframe(1).f_locals` is not modelled. The caller's locals are a map passed to `DeclareNamespace` and returned in its outcome.
- `pkgutil.extend_path` is a function-typed parameter of `DeclareNamespace` and is otherwise uninterpreted. Its directory scan is not part of this model.
- The legacy behaviour of the original `declare_namespace` is not modelled. A delegated call is recorded only as the callable it goes to.
- The `.pth` file and the start-up ordering of the `site` module (lines 5-13) are the host's mechanism.
- Python function identity is not modelled. Callables are opaque ids, and all wrappers share one value because each `apply()` creates a closure that behaves like the others.
- A loader object that is present but falsy counts as no loader (`loaderClass == None`). A `None` entry in `sys.modules` is modelled the same way.
- The snapshot's iteration order is left open; the loop picks any pending name. The result does not depend on it.
- `Patch.Process.Apply`: keeping the state consistent (`Valid`) is promised only from a consistent start. The constructor establishes one.

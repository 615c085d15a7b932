/**
  The compatibility patch of horse_with_no_namespace: `apply()` and the
  `declare_namespace` wrapper it installs on pkg_resources.

  The process state `apply()` works on is gathered in one object: the
  notice flag of the package module, the pkg_resources module (absent when
  it is not installed) with its two declaration-function attributes, and the
  interpreter's registry of loaded modules (`sys.modules`).
 */
module Patch {

  import opened Limit
  import opened Scope

  /**
    A callable, known only by identity: one of pkg_resources' own functions
    or the wrapper this package installs. Every wrapper `apply()` creates
    behaves the same, so they share one value.
   */
  datatype Func = Legacy(id: nat) | Wrapper

  /**
    pkg_resources as seen by the patch: its current `declare_namespace` and
    its `_original_declare_namespace` attribute, `None` while absent.
   */
  datatype Helper = Helper(declareNamespace: Func, originalDeclareNamespace: Option<Func>)

  /**
    An entry of `sys.modules`: the module's identity and the class name of
    its `__loader__`, `None` when it has no loader or a falsy one.
   */
  datatype Module = Module(id: nat, loaderClass: Option<string>)

  /** The class name of the implicit-namespace loader of the import system. */
  const NamespaceLoaderName: string := "NamespaceLoader"

  predicate IsNamespacePlaceholder(m: Module)
  {
    m.loaderClass == Some(NamespaceLoaderName)
  }

  /** A loaded module the eviction loop deletes: in scope and an implicit-namespace placeholder. */
  predicate Stale(limit: Option<set<string>>, name: string, m: Module)
  {
    !OutOfScope(limit, name) && IsNamespacePlaceholder(m)
  }

  /**
    The registry after the eviction loop. It only deletes: no entry is added
    and every kept entry keeps its module. A module not loaded by the
    implicit-namespace loader, or one whose name the limit excludes, is kept.
   */
  function Evict(limit: Option<set<string>>, modules: map<string, Module>): (kept: map<string, Module>)
    ensures kept.Keys <= modules.Keys
    ensures forall name :: name in kept ==> kept[name] == modules[name]
    ensures forall name :: name in modules && !IsNamespacePlaceholder(modules[name]) ==> name in kept
    ensures forall name :: name in modules && OutOfScope(limit, name) ==> name in kept
  {
    map name | name in modules && !Stale(limit, name, modules[name]) :: modules[name]
  }

  /**
    Eviction only deletes: no entry is added, every kept entry keeps its
    exact module, and an entry is deleted exactly when it is in scope and
    loaded by the implicit-namespace loader. In particular an entry without
    a loader, with any other loader, or outside an active limit stays.
   */
  lemma EvictDeletesExactlyStale(limit: Option<set<string>>, modules: map<string, Module>)
    ensures Evict(limit, modules).Keys <= modules.Keys
    ensures forall name :: name in Evict(limit, modules) ==> Evict(limit, modules)[name] == modules[name]
    ensures forall name :: name in modules ==>
      (name !in Evict(limit, modules) <==> Covered(limit, name) && modules[name].loaderClass == Some("NamespaceLoader"))
  {
  }

  /** Running the eviction loop on its own output deletes nothing more. */
  lemma EvictIdempotent(limit: Option<set<string>>, modules: map<string, Module>)
    ensures Evict(limit, Evict(limit, modules)) == Evict(limit, modules)
  {
  }

  /**
    The patch step of pkg_resources: skipped when it is absent; otherwise the
    first observed `declare_namespace` is captured unless a capture exists,
    and the wrapper is installed.
   */
  function PatchHelper(helper: Option<Helper>): (patched: Option<Helper>)
    ensures patched.None? <==> helper.None?
    ensures patched.Some? ==> patched.value.declareNamespace == Wrapper
    ensures patched.Some? ==> patched.value.originalDeclareNamespace.Some?
  {
    match helper
    case None => None
    case Some(h) =>
      var original := if h.originalDeclareNamespace.None? then Some(h.declareNamespace) else h.originalDeclareNamespace;
      Some(Helper(Wrapper, original))
  }

  /**
    The state in which the wrapper never delegates to a wrapper: once the
    wrapper is installed a capture exists, and no capture is the wrapper.
   */
  predicate HelperConsistent(helper: Option<Helper>)
  {
    helper.Some? ==>
      && (helper.value.declareNamespace == Wrapper ==> helper.value.originalDeclareNamespace.Some?)
      && helper.value.originalDeclareNamespace != Some(Wrapper)
  }

  /**
    Capture happens once: after the patch step the wrapper is installed and
    the capture is the one that existed before or, failing that, the
    `declare_namespace` observed now. Absent pkg_resources stays absent.
   */
  lemma PatchHelperCapturesOnce(helper: Option<Helper>)
    ensures PatchHelper(helper).None? <==> helper.None?
    ensures helper.Some? ==> PatchHelper(helper).value.declareNamespace == Wrapper
    ensures helper.Some? && helper.value.originalDeclareNamespace.Some? ==>
      PatchHelper(helper).value.originalDeclareNamespace == helper.value.originalDeclareNamespace
    ensures helper.Some? && helper.value.originalDeclareNamespace.None? ==>
      PatchHelper(helper).value.originalDeclareNamespace == Some(helper.value.declareNamespace)
    ensures helper.Some? ==> PatchHelper(helper).value.originalDeclareNamespace.Some?
  {
  }

  /**
    From a consistent state the patch step never captures the wrapper, so
    the state stays consistent.
   */
  lemma PatchHelperKeepsConsistent(helper: Option<Helper>)
    requires HelperConsistent(helper)
    ensures helper.Some? ==> PatchHelper(helper).value.originalDeclareNamespace != Some(Wrapper)
    ensures HelperConsistent(PatchHelper(helper))
  {
  }

  /** Patching again changes nothing: the capture of the first call survives. */
  lemma PatchHelperIdempotent(helper: Option<Helper>)
    ensures PatchHelper(PatchHelper(helper)) == PatchHelper(helper)
  {
  }

  /** A value in the caller's local variables. */
  datatype PyValue = PathList(entries: seq<string>) | Opaque(id: nat)

  /** The local variable the wrapper extends. */
  const PathName: string := "__path__"

  /**
    What a call of the wrapper amounts to: the call handed to a captured
    function, the AttributeError raised when there is no capture to hand it
    to, or the caller's new local variables.
   */
  datatype Outcome = DelegatedTo(original: Func) | NoOriginal | PathExtended(locals: map<string, PyValue>)

  /**
    The installed `declare_namespace(packageName)`. `original` is
    pkg_resources' `_original_declare_namespace` at the time of the call,
    `callerLocals` the caller's local variables, and `extendPath` stands for
    `pkgutil.extend_path`. When it does not delegate it first gives a
    missing `__path__` the empty list, then replaces `__path__` by
    `extendPath(old __path__, packageName)`; no other local changes.
   */
  method DeclareNamespace(limit: Option<set<string>>, original: Option<Func>, packageName: string,
                          callerLocals: map<string, PyValue>, extendPath: (PyValue, string) -> PyValue)
    returns (outcome: Outcome)
    ensures Dispatch(limit, packageName) == Delegate ==>
      outcome == (if original.Some? then DelegatedTo(original.value) else NoOriginal)
    ensures Dispatch(limit, packageName) == Extend ==> outcome.PathExtended?
    ensures outcome.PathExtended? ==>
      && outcome.locals.Keys == callerLocals.Keys + {PathName}
      && outcome.locals[PathName] ==
           extendPath(if PathName in callerLocals then callerLocals[PathName] else PathList([]), packageName)
      && forall name :: name in callerLocals && name != PathName ==> outcome.locals[name] == callerLocals[name]
  {
    if Dispatch(limit, packageName) == Delegate {
      match original
      case Some(f) => return DelegatedTo(f);
      case None => return NoOriginal;
    }
    var locals := callerLocals;
    if PathName !in locals {
      locals := locals[PathName := PathList([])];
    }
    locals := locals[PathName := extendPath(locals[PathName], packageName)];
    outcome := PathExtended(locals);
  }

  /**
    The process state the patch reads and changes. `limit` is fixed when the
    package module is imported; `logged` is its notice flag; `helper` is
    pkg_resources, `None` when it is not installed; `modules` is `sys.modules`.
   */
  class Process {
    const limit: Option<set<string>>
    var logged: bool
    var helper: Option<Helper>
    var modules: map<string, Module>

    ghost predicate Valid()
      reads this
    {
      HelperConsistent(helper)
    }

    /**
      Importing the package module: the limit is parsed and no notice has
      been shown. `pkgResources` is the id of pkg_resources' own
      `declare_namespace` when it is installed; nothing has been captured yet.
     */
    constructor (env: Option<string>, pkgResources: Option<nat>, loaded: map<string, Module>)
      ensures Valid()
      ensures limit == ParseLimit(env)
      ensures !logged && modules == loaded
      ensures pkgResources.None? ==> helper.None?
      ensures pkgResources.Some? ==> helper == Some(Helper(Legacy(pkgResources.value), None))
    {
      limit := ParseLimit(env);
      logged := false;
      helper := if pkgResources.Some? then Some(Helper(Legacy(pkgResources.value), None)) else None;
      modules := loaded;
    }

    /**
      `apply()`: show the notice if it was never shown, patch pkg_resources if
      it is installed, then delete the stale namespace placeholders from a
      snapshot of `sys.modules`. `noticed` says whether the notice was shown.
     */
    method Apply() returns (noticed: bool)
      modifies this
      ensures logged && noticed == !old(logged)
      ensures helper == PatchHelper(old(helper))
      ensures modules == Evict(limit, old(modules))
      ensures old(Valid()) ==> Valid()
    {
      noticed := !logged;
      if !logged {
        logged := true;
      }

      if helper.Some? {
        var h := helper.value;
        if h.originalDeclareNamespace.None? {
          h := h.(originalDeclareNamespace := Some(h.declareNamespace));
        }
        helper := Some(h.(declareNamespace := Wrapper));
      }

      var snapshot := modules;
      var pending := snapshot.Keys;
      while pending != {}
        invariant logged && helper == PatchHelper(old(helper))
        invariant pending <= snapshot.Keys
        invariant forall name :: name in modules <==>
          name in snapshot && (name in pending || !Stale(limit, name, snapshot[name]))
        invariant forall name :: name in modules ==> modules[name] == snapshot[name]
        decreases pending
      {
        var name :| name in pending;
        var entry := snapshot[name];
        pending := pending - {name};
        if OutOfScope(limit, name) {
          continue;
        }
        if IsNamespacePlaceholder(entry) {
          modules := modules - {name};
        }
      }
      assert modules == Evict(limit, snapshot);
    }

    /**
      A call of `pkg_resources.declare_namespace` once the wrapper is
      installed: the wrapper runs with the capture as it stands, so a
      delegated call reaches the captured function, which is never a wrapper,
      and AttributeError cannot arise.
     */
    method CallDeclareNamespace(packageName: string, callerLocals: map<string, PyValue>,
                                extendPath: (PyValue, string) -> PyValue)
      returns (outcome: Outcome)
      requires Valid() && helper.Some? && helper.value.declareNamespace == Wrapper
      ensures outcome != NoOriginal && outcome != DelegatedTo(Wrapper)
      ensures Dispatch(limit, packageName) == Delegate ==>
        outcome == DelegatedTo(helper.value.originalDeclareNamespace.value)
      ensures Dispatch(limit, packageName) == Extend ==>
        && outcome.PathExtended?
        && outcome.locals.Keys == callerLocals.Keys + {PathName}
        && outcome.locals[PathName] ==
             extendPath(if PathName in callerLocals then callerLocals[PathName] else PathList([]), packageName)
        && forall name :: name in callerLocals && name != PathName ==> outcome.locals[name] == callerLocals[name]
    {
      outcome := DeclareNamespace(limit, helper.value.originalDeclareNamespace, packageName, callerLocals, extendPath);
    }
  }

  /**
    The site module calling `apply()` twice: the notice is shown at most
    once, and pkg_resources and the registry end as after a single call.
   */
  method ApplyTwice(p: Process) returns (notices: nat)
    modifies p
    ensures notices == if old(p.logged) then 0 else 1
    ensures p.helper == PatchHelper(old(p.helper))
    ensures p.modules == Evict(p.limit, old(p.modules))
    ensures old(p.Valid()) ==> p.Valid()
  {
    ghost var helper0, modules0 := p.helper, p.modules;
    var first := p.Apply();
    var second := p.Apply();
    notices := (if first then 1 else 0) + (if second then 1 else 0);
    PatchHelperIdempotent(helper0);
    EvictIdempotent(p.limit, modules0);
  }

  /**
    Start-up as the site module runs it: the package module is imported with
    pkg_resources installed, `apply()` runs twice, and a package then calls
    `declare_namespace`. A delegated call reaches pkg_resources' own function,
    the one observed first, and never a wrapper.
   */
  method StartupThenDeclare(env: Option<string>, legacyId: nat, loaded: map<string, Module>,
                            packageName: string, callerLocals: map<string, PyValue>,
                            extendPath: (PyValue, string) -> PyValue)
    returns (outcome: Outcome)
    ensures Dispatch(ParseLimit(env), packageName) == Delegate ==> outcome == DelegatedTo(Legacy(legacyId))
    ensures Dispatch(ParseLimit(env), packageName) == Extend ==> outcome.PathExtended?
  {
    var p := new Process(env, Some(legacyId), loaded);
    var notices := ApplyTwice(p);
    PatchHelperCapturesOnce(Some(Helper(Legacy(legacyId), None)));
    outcome := p.CallDeclareNamespace(packageName, callerLocals, extendPath);
  }
}

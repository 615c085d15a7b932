/**
  The two scope tests of the patch. The eviction loop skips a module when a
  limit is active and its name neither equals a limit entry nor starts with
  `entry + "."`. The declaration wrapper uses a different test: with a limit
  active it hands the call back to the original declaration function unless
  the name both starts with some `entry + "."` AND is itself a limit entry.
 */
module Scope {

  import opened Limit

  /** Python's `s.startswith(prefix)`. */
  predicate StartsWith(s: string, prefix: string)
  {
    |prefix| <= |s| && s[..|prefix|] == prefix
  }

  /** `any(name.startswith(prefix + ".") for prefix in limit)`. */
  predicate UnderSomePrefix(limit: set<string>, name: string)
  {
    exists prefix :: prefix in limit && StartsWith(name, prefix + ".")
  }

  /**
    The skip test of the eviction loop: an active limit that does not cover
    `name`. Without an active limit nothing is skipped, and a name listed in
    the limit is never skipped.
   */
  predicate OutOfScope(limit: Option<set<string>>, name: string)
    ensures OutOfScope(limit, name) ==> Active(limit) && name !in limit.value
  {
    Active(limit) && !UnderSomePrefix(limit.value, name) && name !in limit.value
  }

  /**
    The scope a limit entry stands for, written independently of both
    tests: no limit, or a limit entry that the name equals or that the name
    extends by a dot.
   */
  predicate Covered(limit: Option<set<string>>, name: string)
  {
    !Active(limit) ||
    exists prefix :: prefix in limit.value && (name == prefix || StartsWith(name, prefix + "."))
  }

  /** The eviction filter skips exactly the names no limit entry covers. */
  lemma OutOfScopeIsNotCovered(limit: Option<set<string>>, name: string)
    ensures OutOfScope(limit, name) <==> !Covered(limit, name)
  {
  }

  /** The two things the declaration wrapper can do with a call. */
  datatype Route = Delegate | Extend

  /**
    The wrapper's test as written: with no active limit it always extends
    `__path__`; with one it extends only names that are limit entries and
    also dotted extensions of a limit entry, and delegates everything else.
    Whatever it extends, the eviction filter also keeps in scope.
   */
  function Dispatch(limit: Option<set<string>>, name: string): (route: Route)
    ensures !Active(limit) ==> route == Extend
    ensures Active(limit) ==>
      (route == Extend <==> name in limit.value && UnderSomePrefix(limit.value, name))
    ensures route == Extend ==> Covered(limit, name)
  {
    if Active(limit) && (!UnderSomePrefix(limit.value, name) || name !in limit.value)
    then Delegate
    else Extend
  }

  /**
    With the usual kind of limit, a list of top-level names none of which
    extends another, the wrapper as written delegates every call.
   */
  lemma DispatchDelegatesAllForFlatLimit(limit: set<string>, name: string)
    requires limit != {}
    requires forall p, q :: p in limit && q in limit ==> !StartsWith(q, p + ".")
    ensures Dispatch(Some(limit), name) == Delegate
  {
  }

  /**
    The input on which the two tests differ: with the limit {"acme"}, the
    sub-package "acme.widgets" is in scope for eviction, yet the wrapper
    delegates it to the original declaration function.
   */
  lemma DispatchDelegatesCoveredSubpackage()
    ensures Covered(Some({"acme"}), "acme.widgets")
    ensures !OutOfScope(Some({"acme"}), "acme.widgets")
    ensures Dispatch(Some({"acme"}), "acme.widgets") == Delegate
  {
  }

  /**
    The wrapper's test as evidently intended: delegate exactly the names the
    eviction loop skips, so that both steps patch the same packages.
   */
  function DispatchIntended(limit: Option<set<string>>, name: string): (route: Route)
    ensures route == Extend <==> Covered(limit, name)
    ensures Dispatch(limit, name) == Extend ==> route == Extend
  {
    OutOfScopeIsNotCovered(limit, name);
    if OutOfScope(limit, name) then Delegate else Extend
  }

  /**
    The intended test under the limit {"acme"}: "acme.widgets" and "acme"
    itself get their `__path__` extended, and "other.thing" is handed to
    the original function.
   */
  lemma DispatchIntendedOnExample()
    ensures DispatchIntended(Some({"acme"}), "acme.widgets") == Extend
    ensures DispatchIntended(Some({"acme"}), "acme") == Extend
    ensures DispatchIntended(Some({"acme"}), "other.thing") == Delegate
  {
    assert StartsWith("acme.widgets", "acme" + ".");
    assert !StartsWith("other.thing", "acme" + ".") by {
      assert "other.thing"[0] != ("acme" + ".")[0];
    }
  }

  /**
    An empty piece in the variable (an empty value or a trailing comma)
    puts "" in the limit, which covers only "" and names starting with ".":
    an ordinary top-level package such as "acme" stays out of scope.
   */
  lemma EmptyPrefixCoversNoPackage(name: string)
    requires |name| > 0 && name[0] != '.'
    ensures OutOfScope(ParseLimit(Some("")), name)
  {
    ParseLimitEmptyPieces("");
  }
}

/**
 * The canonical name of a permission, `resource:action[:scope]`, built from the
 * permission's resource, action and optional scope columns.
 */
module Roles {
  import opened Wrappers
  import opened PyStrings

  /** The columns of a permission row that its canonical name is built from. */
  datatype Permission = Permission(resource: string, action: string, scope: Option<string>)

  /** The list of name parts: resource and action, then the scope only when it is truthy. */
  function NameParts(p: Permission): (parts: seq<string>)
    ensures |parts| == if Truthy(p.scope) then 3 else 2
    ensures parts[0] == p.resource && parts[1] == p.action
    ensures Truthy(p.scope) ==> parts[2] == p.scope.value
  {
    [p.resource, p.action] + (if Truthy(p.scope) then [p.scope.value] else [])
  }

  /** The permission's canonical name: its parts joined with `:`. */
  function FullName(p: Permission): (r: string)
    ensures !Truthy(p.scope) ==> r == p.resource + ":" + p.action
    ensures Truthy(p.scope) ==> r == p.resource + ":" + p.action + ":" + p.scope.value
    ensures p.resource + ":" + p.action <= r
  {
    var parts := NameParts(p);
    assert Join(parts[1..], ":") == if Truthy(p.scope) then p.action + ":" + p.scope.value else p.action by {
      assert parts[1..][1..] == parts[2..];
    }
    Join(parts, ":")
  }

  /** No component of the permission contains a colon. */
  predicate ColonFree(p: Permission) {
    && ':' !in p.resource
    && ':' !in p.action
    && (p.scope.Some? ==> ':' !in p.scope.value)
  }

  /** Splitting the canonical name on `:` gives back the components, when none contains a colon. */
  lemma FullNameSplits(p: Permission)
    requires ColonFree(p)
    ensures !Truthy(p.scope) ==> Split(FullName(p), ':') == [p.resource, p.action]
    ensures Truthy(p.scope) ==> Split(FullName(p), ':') == [p.resource, p.action, p.scope.value]
  {
    assert ":" == [':'];
    SplitJoin(NameParts(p), ':');
  }

  /** A colon-free permission's name holds one colon without a scope and two with one. */
  lemma FullNameColons(p: Permission)
    requires ColonFree(p)
    ensures Count(FullName(p), ':') == if Truthy(p.scope) then 2 else 1
  {
    assert ":" == [':'];
    CountJoin(NameParts(p), ':');
  }

  /**
   * Colon-free permissions with the same canonical name agree on resource, action and
   * scope, where an absent scope and an empty scope count as the same.
   */
  lemma FullNameInjective(p: Permission, q: Permission)
    requires ColonFree(p) && ColonFree(q)
    requires FullName(p) == FullName(q)
    ensures p.resource == q.resource && p.action == q.action
    ensures Truthy(p.scope) == Truthy(q.scope)
    ensures Truthy(p.scope) ==> p.scope.value == q.scope.value
  {
    assert ":" == [':'];
    JoinInjective(NameParts(p), NameParts(q), ':');
  }

  /**
   * An empty scope is left out of the name just as an absent one is, so two distinct
   * (resource, action, scope) triples share one name.
   */
  lemma EmptyScopeNamedAsAbsent(resource: string, action: string)
    ensures Permission(resource, action, Some("")) != Permission(resource, action, None)
    ensures FullName(Permission(resource, action, Some(""))) == FullName(Permission(resource, action, None))
  {
  }
}

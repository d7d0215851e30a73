/** The permission vocabulary shared by a player instance, its own permission
    tree and the role registry. The tree itself (JMPermission) is not part of
    this model: a tree is known only through the additions made to it since it
    was created, and its query and flattening are supplied by the caller. */
module Permission {

  /** The type tag of a permission node. */
  datatype PermType = INHERIT | DISALLOW | ALLOW

  /** What a tree or a role answers for one path: whether it grants the path,
      and the type the lookup resolved to. */
  datatype Resolution = Resolution(granted: bool, permType: PermType)

  /** One AddPermission call made on a tree. */
  datatype Grant = Grant(path: string, permType: PermType)

  /** A permission tree, as the sequence of additions made to it since it was
      created (an empty sequence is a freshly created root). */
  type Tree = seq<Grant>

  /** The operations of the permission tree that the player instance uses:
      `has` is JMPermission.HasPermission, `serialize` is JMPermission.Serialize. */
  datatype TreeOps = TreeOps(has: (Tree, string) -> Resolution, serialize: Tree -> seq<string>)

  /** The external role registry: which role names it recognises, and what
      each role answers for a path. */
  datatype Registry = Registry(knownRoles: set<string>, rolePermission: (string, string) -> Resolution)

  /** The additions made when every path of `paths` is added with the default type. */
  function Inherits(paths: seq<string>): (r: Tree)
  {
    seq(|paths|, i requires 0 <= i < |paths| => Grant(paths[i], INHERIT))
  }

  /** Adding two lists of paths one after the other adds their concatenation. */
  lemma InheritsAppend(a: seq<string>, b: seq<string>)
    ensures Inherits(a + b) == Inherits(a) + Inherits(b)
  {
  }

  /** Adding the next path of `paths` to a tree that holds the additions of
      the first `i` paths gives the additions of the first `i + 1`. */
  lemma InheritsStep(base: Tree, paths: seq<string>, i: nat)
    requires i < |paths|
    ensures Inherits(paths[..i]) + [Grant(paths[i], INHERIT)] == Inherits(paths[..i + 1])
    ensures base + Inherits(paths[..i]) + [Grant(paths[i], INHERIT)] == base + Inherits(paths[..i + 1])
  {
    assert paths[..i + 1] == paths[..i] + [paths[i]];
    InheritsAppend(paths[..i], [paths[i]]);
  }

  /** Some role of `roles`, looked up in the registry, grants `path`. */
  predicate SomeRoleGrants(roles: seq<string>, registry: Registry, path: string)
  {
    exists j :: 0 <= j < |roles| && registry.rolePermission(roles[j], path).granted
  }

  /** The access decision of a player: the player's own tree decides when it
      grants the path or resolves it to DISALLOW; otherwise the path is granted
      exactly when some assigned role grants it. */
  predicate Permitted(own: Resolution, roles: seq<string>, registry: Registry, path: string)
  {
    own.granted || (own.permType != DISALLOW && SomeRoleGrants(roles, registry, path))
  }

  /** A grant in the player's own tree is final: no role is needed and the
      answer is the same under every registry and every role list. */
  lemma OwnGrantIsFinal(own: Resolution, roles: seq<string>, registry: Registry, roles': seq<string>, registry': Registry, path: string)
    requires own.granted
    ensures Permitted(own, roles, registry, path)
    ensures Permitted(own, roles, registry, path) == Permitted(own, roles', registry', path)
  {
  }

  /** An explicit DISALLOW in the player's own tree is final: whatever the
      roles say, the path is refused. */
  lemma OwnDenyIsFinal(own: Resolution, roles: seq<string>, registry: Registry, path: string)
    requires !own.granted && own.permType == DISALLOW
    ensures !Permitted(own, roles, registry, path)
  {
  }

  /** A role that refuses the path does not stop a later role from granting it. */
  lemma RoleDenyDoesNotBlockLaterRoles(own: Resolution, roles: seq<string>, registry: Registry, path: string, i: nat, j: nat)
    requires own.permType != DISALLOW
    requires i < j < |roles|
    requires registry.rolePermission(roles[i], path) == Resolution(false, DISALLOW)
    requires registry.rolePermission(roles[j], path).granted
    ensures Permitted(own, roles, registry, path)
  {
  }

  /** When the own tree defers (neither a grant nor DISALLOW), the answer is
      false exactly when every assigned role refuses the path. */
  lemma DeferredToRoles(own: Resolution, roles: seq<string>, registry: Registry, path: string)
    requires !own.granted && own.permType != DISALLOW
    ensures !Permitted(own, roles, registry, path) <==>
            forall j :: 0 <= j < |roles| ==> !registry.rolePermission(roles[j], path).granted
  {
  }
}

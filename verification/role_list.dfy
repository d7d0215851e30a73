/** The role list of a player instance: a duplicate-free list of role names,
    kept in the order the roles were admitted. */
module RoleList {

  /** The implicit role every instance is given when its roles are cleared. */
  const EVERYONE := "everyone"

  predicate NoDuplicates(s: seq<string>)
  {
    forall i, j :: 0 <= i < j < |s| ==> s[i] != s[j]
  }

  function Elements(s: seq<string>): (r: set<string>)
  {
    set x | x in s
  }

  /** The role list after AddRole has been called with each of `candidates`,
      in order, starting from `roles`: a candidate is appended when the
      registry knows it and the list does not hold it yet. */
  function Admit(roles: seq<string>, candidates: seq<string>, known: set<string>): (r: seq<string>)
    decreases |candidates|
  {
    if candidates == [] then roles
    else
      var r := candidates[0];
      Admit(if r in known && r !in roles then roles + [r] else roles, candidates[1..], known)
  }

  /** The role list ClearRoles leaves: just "everyone", if the registry knows it. */
  function Cleared(known: set<string>): (r: seq<string>)
  {
    if EVERYONE in known then [EVERYONE] else []
  }

  /** An independent description of what the admitted candidates are: the
      first occurrence of each registry-known candidate not in `seen`, in the
      order the candidates come. */
  function FirstOccurrences(candidates: seq<string>, known: set<string>, seen: set<string>): (r: seq<string>)
    ensures NoDuplicates(r)
    ensures forall x :: x in r <==> x in candidates && x in known && x !in seen
    decreases |candidates|
  {
    if candidates == [] then []
    else if candidates[0] in known && candidates[0] !in seen then
      [candidates[0]] + FirstOccurrences(candidates[1..], known, seen + {candidates[0]})
    else
      FirstOccurrences(candidates[1..], known, seen)
  }

  /** Admitting candidates appends, after the existing roles, exactly the
      first occurrences of the known candidates that were not already held. */
  lemma {:induction false} AdmitAppendsFirstOccurrences(roles: seq<string>, candidates: seq<string>, known: set<string>)
    ensures Admit(roles, candidates, known) == roles + FirstOccurrences(candidates, known, Elements(roles))
    decreases |candidates|
  {
    if candidates != [] {
      var r := candidates[0];
      if r in known && r !in roles {
        AdmitAppendsFirstOccurrences(roles + [r], candidates[1..], known);
        assert Elements(roles + [r]) == Elements(roles) + {r};
      } else {
        AdmitAppendsFirstOccurrences(roles, candidates[1..], known);
      }
    }
  }

  /** Admitting keeps the list duplicate-free, and afterwards a name is held
      exactly when it was held before or it is a known candidate. */
  lemma AdmitKeepsRolesDistinct(roles: seq<string>, candidates: seq<string>, known: set<string>)
    requires NoDuplicates(roles)
    ensures NoDuplicates(Admit(roles, candidates, known))
    ensures forall x :: x in Admit(roles, candidates, known) <==> x in roles || (x in candidates && x in known)
  {
    AdmitAppendsFirstOccurrences(roles, candidates, known);
    var added := FirstOccurrences(candidates, known, Elements(roles));
    var s := roles + added;
    forall i, j | 0 <= i < j < |s| ensures s[i] != s[j] {
      if j >= |roles| && i < |roles| {
        assert s[j] == added[j - |roles|];
        assert s[i] in Elements(roles);
      } else if i >= |roles| {
        assert s[i] == added[i - |roles|] && s[j] == added[j - |roles|];
      }
    }
  }

  /** Loading roles after a clear gives "everyone" (when known) followed by
      the first occurrences of the other known names, in order. */
  lemma LoadedRoles(candidates: seq<string>, known: set<string>)
    ensures Admit(Cleared(known), candidates, known)
         == Cleared(known) + FirstOccurrences(candidates, known, Elements(Cleared(known)))
    ensures EVERYONE in known ==> Admit(Cleared(known), candidates, known)[0] == EVERYONE
    ensures NoDuplicates(Admit(Cleared(known), candidates, known))
  {
    AdmitAppendsFirstOccurrences(Cleared(known), candidates, known);
    AdmitKeepsRolesDistinct(Cleared(known), candidates, known);
  }
}

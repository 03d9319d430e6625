/** The attribute handling of the direct ADFS login: mapping claims onto user
    fields, the email requirement before a user record is written, and the raw
    group list the group middleware consults. These read `attribute_mapping`
    as one claim name per field, indexing the claims with it directly. */
module Adfs {
  import opened Results
  import opened Strings
  import opened Claims

  /** `attribute_mapping` as this service reads it: user field to claim name. */
  type FieldMapping = map<string, string>

  /** The same configuration seen through the alias-aware reader of the other
      services. */
  function AsClaimMapping(m: FieldMapping): (r: ClaimMapping)
    ensures r.Keys == m.Keys
    ensures forall f :: f in m ==> r[f] == Name(m[f])
  {
    map f | f in m :: Name(m[f])
  }

  /** Field `f` gets a value: it is mapped and its claim is present and non-empty. */
  predicate Supplies(m: FieldMapping, claims: ClaimSet, f: string) {
    f in m && Present(claims, m[f])
  }

  /** `mapAttributes`: every mapped field whose claim is present and non-empty,
      holding the first value of that claim. */
  method MapAttributes(m: FieldMapping, claims: ClaimSet) returns (user: map<string, string>)
    ensures user.Keys <= m.Keys
    ensures forall f :: f in user <==> Supplies(m, claims, f)
    ensures forall f :: f in user ==> Supplies(m, claims, f) && user[f] == FirstValue(claims[m[f]])
  {
    user := map[];
    var todo := m.Keys;
    while todo != {}
      invariant todo <= m.Keys
      invariant forall f :: f in user <==> f in m.Keys - todo && Supplies(m, claims, f)
      invariant forall f :: f in user ==> Supplies(m, claims, f) && user[f] == FirstValue(claims[m[f]])
      decreases todo
    {
      var f :| f in todo;
      var name := m[f];
      if name in claims && !BlankValue(claims[name]) {
        user := user[f := FirstValue(claims[name])];
      }
      todo := todo - {f};
    }
  }

  datatype UserError = EmailRequired

  /** `createOrUpdateUser` up to the write: the mapped user data, refused when
      the mapped email is missing or empty. The write itself is not modelled. */
  method CreateOrUpdateUser(m: FieldMapping, claims: ClaimSet) returns (r: Result<map<string, string>, UserError>)
    ensures r.Ok? <==> Supplies(m, claims, "email") && !Blank(FirstValue(claims[m["email"]]))
    ensures r.Ok? ==> forall f :: f in r.value <==> Supplies(m, claims, f)
    ensures r.Ok? ==> r.value["email"] == FirstValue(claims[m["email"]])
  {
    var user := MapAttributes(m, claims);
    if "email" !in user || Blank(user["email"]) {
      return Err(EmailRequired);
    }
    return Ok(user);
  }

  /** `getUserGroups`: the raw group claim as a list, or no groups when it is not
      set. Unlike access control, an empty claim still counts as set here. */
  function GetUserGroups(m: FieldMapping, claims: ClaimSet): (r: Result<seq<string>, ConfigError>)
    ensures "groups" !in m ==> r == Err(UndefinedKey("groups"))
    ensures "groups" in m && m["groups"] !in claims ==> r == Ok([])
    ensures "groups" in m && m["groups"] in claims ==> r == Ok(AsList(claims[m["groups"]]))
  {
    if "groups" !in m then Err(UndefinedKey("groups"))
    else if m["groups"] in claims then Ok(AsList(claims[m["groups"]]))
    else Ok([])
  }

  /** `userHasGroup`: exact, case-sensitive membership among the raw groups; the
      lookup's error propagates. */
  function UserHasGroup(m: FieldMapping, claims: ClaimSet, group: string): (r: Result<bool, ConfigError>)
    ensures r.Err? <==> GetUserGroups(m, claims).Err?
    ensures r.Err? ==> r.error == GetUserGroups(m, claims).error
    ensures r.Ok? ==>
      (r.value <==> exists i :: 0 <= i < |GetUserGroups(m, claims).value| && GetUserGroups(m, claims).value[i] == group)
  {
    var groups :- GetUserGroups(m, claims);
    Ok(group in groups)
  }

  /** Access control finds the groups under the one claim name the groups
      field is mapped to. */
  lemma GroupsLookup(m: FieldMapping, claims: ClaimSet)
    requires "groups" in m && !Blank(m["groups"])
    requires Present(claims, m["groups"])
    ensures Lookup(claims, AsClaimMapping(m), "groups") == Some(claims[m["groups"]])
  {
    var cm := AsClaimMapping(m);
    assert Candidates(cm["groups"]) == [m["groups"]];
    assert FirstPresent(claims, [m["groups"]]) == Some(0);
  }

  /** The raw groups `userHasGroup` tests and the groups access control
      evaluates are the same claims seen two ways: each raw group reaches
      access control as its Common Name, and access control sees nothing else. */
  lemma {:induction false} GroupViewsAgree(m: FieldMapping, claims: ClaimSet)
    requires "groups" in m && !Blank(m["groups"])
    requires Present(claims, m["groups"])
    ensures forall g :: UserHasGroup(m, claims, g) == Ok(true) ==> NormalizeGroup(g) in ClaimGroups(claims, AsClaimMapping(m))
    ensures forall x :: x in ClaimGroups(claims, AsClaimMapping(m)) ==>
      exists g :: UserHasGroup(m, claims, g) == Ok(true) && NormalizeGroup(g) == x
  {
    var cm := AsClaimMapping(m);
    GroupsLookup(m, claims);
    var raw := AsList(claims[m["groups"]]);
    assert GetUserGroups(m, claims) == Ok(raw);
    forall g | UserHasGroup(m, claims, g) == Ok(true)
      ensures NormalizeGroup(g) in ClaimGroups(claims, cm)
    {
      var i :| 0 <= i < |raw| && raw[i] == g;
      assert NormalizeGroup(raw[i]) in ClaimGroups(claims, cm);
    }
    forall x | x in ClaimGroups(claims, cm)
      ensures exists g :: UserHasGroup(m, claims, g) == Ok(true) && NormalizeGroup(g) == x
    {
      var i :| 0 <= i < |raw| && NormalizeGroup(raw[i]) == x;
      assert UserHasGroup(m, claims, raw[i]) == Ok(true);
    }
  }
}

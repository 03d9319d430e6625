/** Claims as the upstream identity provider asserts them, and the configured
    `attribute_mapping` that names them: each canonical field (email,
    department, groups, ...) is looked up under one or more claim names, the
    first present and non-empty one winning. Group claims written as
    Distinguished Names are reduced to their Common Name. */
module Claims {
  import opened Results
  import opened Strings

  /** A claim value: one string, or a list of strings. */
  datatype ClaimValue = Single(text: string) | Multi(items: seq<string>)

  /** The asserted attributes, keyed by claim name. */
  type ClaimSet = map<string, ClaimValue>

  /** PHP's `empty()` on a claim value. */
  predicate BlankValue(v: ClaimValue) {
    match v
    case Single(s) => Blank(s)
    case Multi(xs) => |xs| == 0
  }

  /** `is_array($v) ? $v : [$v]`. */
  function AsList(v: ClaimValue): seq<string> {
    match v
    case Single(s) => [s]
    case Multi(xs) => xs
  }

  /** `is_array($v) ? $v[0] : $v`, on a non-empty value. */
  function FirstValue(v: ClaimValue): string
    requires !BlankValue(v)
  {
    match v
    case Single(s) => s
    case Multi(xs) => xs[0]
  }

  /** One entry of `attribute_mapping`: a single claim name, or a list of
      alias names tried in order. */
  datatype MappingEntry = Name(name: string) | Aliases(names: seq<string>)

  /** `attribute_mapping`: canonical field name to the claim name(s) carrying it. */
  type ClaimMapping = map<string, MappingEntry>

  /** An entry PHP treats as falsy (`!$samlAttributeConfig`). */
  predicate BlankEntry(e: MappingEntry) {
    match e
    case Name(n) => Blank(n)
    case Aliases(ns) => |ns| == 0
  }

  /** The claim names an entry lists, in the order they are tried. */
  function Candidates(e: MappingEntry): seq<string> {
    match e
    case Name(n) => [n]
    case Aliases(ns) => ns
  }

  /** `isset($claims[$name]) && !empty($claims[$name])`. */
  predicate Present(claims: ClaimSet, name: string) {
    name in claims && !BlankValue(claims[name])
  }

  /** The position of the first name in `names` under which a non-empty claim is
      present, if any. */
  function FirstPresent(claims: ClaimSet, names: seq<string>): (r: Option<nat>)
    ensures r.Some? ==> r.value < |names| && Present(claims, names[r.value])
    ensures r.Some? ==> forall j :: 0 <= j < r.value ==> !Present(claims, names[j])
    ensures r.None? <==> forall j :: 0 <= j < |names| ==> !Present(claims, names[j])
  {
    if names == [] then None
    else if Present(claims, names[0]) then Some(0)
    else
      match FirstPresent(claims, names[1..])
      case None => None
      case Some(k) => Some(k + 1)
  }

  /** The raw value of canonical `field`: the value under the first configured
      alias that is present and non-empty; nothing when the field is not
      mapped, is mapped to an empty entry, or no alias is present. */
  function Lookup(claims: ClaimSet, mapping: ClaimMapping, field: string): (r: Option<ClaimValue>)
    ensures r.Some? ==> !BlankValue(r.value)
    ensures r.Some? <==>
      field in mapping && !BlankEntry(mapping[field]) &&
      exists j :: 0 <= j < |Candidates(mapping[field])| && Present(claims, Candidates(mapping[field])[j])
    ensures r.Some? ==>
      exists j :: 0 <= j < |Candidates(mapping[field])| &&
        Present(claims, Candidates(mapping[field])[j]) &&
        r.value == claims[Candidates(mapping[field])[j]] &&
        forall i :: 0 <= i < j ==> !Present(claims, Candidates(mapping[field])[i])
  {
    if field !in mapping || BlankEntry(mapping[field]) then None
    else
      var names := Candidates(mapping[field]);
      match FirstPresent(claims, names)
      case None => None
      case Some(k) => Some(claims[names[k]])
  }

  /** A single-valued field (`getAttribute($claims, $field)`): the first value of
      the winning claim. */
  function ClaimText(claims: ClaimSet, mapping: ClaimMapping, field: string): (r: Option<string>)
    ensures r.Some? <==> Lookup(claims, mapping, field).Some?
    // The value is the first value of the first present alias's claim.
    ensures r.Some? ==>
      exists j :: 0 <= j < |Candidates(mapping[field])| &&
        Present(claims, Candidates(mapping[field])[j]) &&
        r.value == FirstValue(claims[Candidates(mapping[field])[j]]) &&
        forall i :: 0 <= i < j ==> !Present(claims, Candidates(mapping[field])[i])
  {
    match Lookup(claims, mapping, field)
    case None => None
    case Some(v) => Some(FirstValue(v))
  }

  /** The match of `^CN=([^,]+),` against `g` capturing `cn`: `g` starts with
      "CN=", then `cn` (non-empty, comma-free), then a comma. */
  predicate DistinguishedName(g: string, cn: string) {
    && |g| > |cn| + 3
    && g[..3] == "CN="
    && cn != []
    && ',' !in cn
    && g[3..3 + |cn|] == cn
    && g[3 + |cn|] == ','
  }

  /** The number of leading characters of `s` before its first comma. */
  function LeadingNonComma(s: string): (n: nat)
    ensures n <= |s|
    ensures forall i :: 0 <= i < n ==> s[i] != ','
    ensures n < |s| ==> s[n] == ','
  {
    if s == [] || s[0] == ',' then 0 else 1 + LeadingNonComma(s[1..])
  }

  /** One group claim as access control sees it: the Common Name of a
      Distinguished Name, any other string unchanged. */
  function NormalizeGroup(g: string): (r: string)
    ensures forall cn :: DistinguishedName(g, cn) ==> r == cn
    ensures r != g ==> DistinguishedName(g, r)
  {
    if |g| >= 3 && g[..3] == "CN=" then
      var n := LeadingNonComma(g[3..]);
      if 0 < n < |g| - 3 then g[3..3 + n] else g
    else g
  }

  /** Reducing a group that is already reduced changes nothing: a Common Name
      never contains the comma a Distinguished Name needs. */
  lemma NormalizeGroupIdempotent(g: string)
    ensures NormalizeGroup(NormalizeGroup(g)) == NormalizeGroup(g)
  {
  }

  function NormalizeAll(gs: seq<string>): (r: seq<string>)
    ensures |r| == |gs|
    ensures forall i :: 0 <= i < |gs| ==> r[i] == NormalizeGroup(gs[i])
  {
    seq(|gs|, i requires 0 <= i < |gs| => NormalizeGroup(gs[i]))
  }

  /** `processGroupsForAccessControl`: every group reduced to its Common Name,
      duplicates (compared exactly) removed. */
  function NormalizeGroups(v: ClaimValue): (r: seq<string>)
    ensures NoDuplicates(r)
    ensures forall x :: x in r <==> exists i :: 0 <= i < |AsList(v)| && NormalizeGroup(AsList(v)[i]) == x
  {
    var all := NormalizeAll(AsList(v));
    assert forall x :: x in all <==> exists i :: 0 <= i < |AsList(v)| && NormalizeGroup(AsList(v)[i]) == x by {
      forall x | x in all
        ensures exists i :: 0 <= i < |AsList(v)| && NormalizeGroup(AsList(v)[i]) == x
      {
        var i :| 0 <= i < |all| && all[i] == x;
        assert NormalizeGroup(AsList(v)[i]) == x;
      }
    }
    Dedup(all)
  }

  /** The groups field as access control reads it
      (`getAttribute($claims, 'groups', true)`). */
  function ClaimGroups(claims: ClaimSet, mapping: ClaimMapping): (r: seq<string>)
    ensures NoDuplicates(r)
    ensures Lookup(claims, mapping, "groups").None? ==> r == []
    // Otherwise exactly the normalised groups of the winning alias's claim.
    ensures Lookup(claims, mapping, "groups").Some? ==>
      var v := Lookup(claims, mapping, "groups").value;
      forall x :: x in r <==> exists i :: 0 <= i < |AsList(v)| && NormalizeGroup(AsList(v)[i]) == x
  {
    match Lookup(claims, mapping, "groups")
    case None => []
    case Some(v) => NormalizeGroups(v)
  }

  /** The Common Name of the example group. */
  lemma FacultyNormalizes()
    ensures NormalizeGroup("CN=Faculty,OU=Groups") == "Faculty"
  {
    var g := "CN=Faculty,OU=Groups";
    assert g[..3] == "CN=" && g[3..10] == "Faculty" && g[10] == ',';
    assert DistinguishedName(g, "Faculty");
  }

  /** The example claims under the example aliases: the first alias is absent,
      so the second one wins. */
  lemma FacultyLookup(claims: ClaimSet, mapping: ClaimMapping)
    requires mapping == map["groups" := Aliases(["http://schemas.xmlsoap.org/claims/Group",
                                                 "http://schemas.microsoft.com/ws/2008/06/identity/claims/groups"])]
    requires claims == map["http://schemas.microsoft.com/ws/2008/06/identity/claims/groups" := Multi(["CN=Faculty,OU=Groups"])]
    ensures Lookup(claims, mapping, "groups") == Some(Multi(["CN=Faculty,OU=Groups"]))
  {
    var names := Candidates(mapping["groups"]);
    assert !Present(claims, names[0]);
    assert Present(claims, names[1]);
    assert FirstPresent(claims, names[1..]) == Some(0);
    assert FirstPresent(claims, names) == Some(1);
  }

  /** A groups field with two aliases, only the second of which carries a claim,
      one Distinguished Name: the group reaches access control as its Common
      Name. */
  lemma FacultyGroupExample(claims: ClaimSet, mapping: ClaimMapping)
    requires mapping == map["groups" := Aliases(["http://schemas.xmlsoap.org/claims/Group",
                                                 "http://schemas.microsoft.com/ws/2008/06/identity/claims/groups"])]
    requires claims == map["http://schemas.microsoft.com/ws/2008/06/identity/claims/groups" := Multi(["CN=Faculty,OU=Groups"])]
    ensures ClaimGroups(claims, mapping) == ["Faculty"]
  {
    FacultyLookup(claims, mapping);
    FacultyNormalizes();
    assert NormalizeAll(["CN=Faculty,OU=Groups"]) == ["Faculty"];
    assert Dedup(["Faculty"]) == ["Faculty"] by {
      assert ["Faculty"][..0] == [];
    }
  }
}

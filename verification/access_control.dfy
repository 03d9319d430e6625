/** The access-control decision engine: an ordered, short-circuiting policy
    over the subject's email, department and groups. Stages run in the order
    whitelist, blocked groups, required groups, department; each is entered only
    when its toggle is on and its list is non-empty, and the first failing stage
    ends the evaluation with a denial. */
module AccessControl {
  import opened Results
  import opened Strings
  import opened Claims

  /** The `access_control` configuration block with every toggle set. */
  datatype Policy = Policy(
    whitelistEnabled: bool,
    whitelistEmails: seq<string>,
    groupRestrictionEnabled: bool,
    blockedGroups: seq<string>,
    requiredGroups: seq<string>,
    departmentRestrictionEnabled: bool,
    allowedDepartments: seq<string>)

  datatype Stage = Whitelist | BlockedGroups | RequiredGroups | Department

  /** Position of a stage in the evaluation order. */
  function Rank(s: Stage): nat {
    match s
    case Whitelist => 0
    case BlockedGroups => 1
    case RequiredGroups => 2
    case Department => 3
  }

  /** One entry of the audit trail: the stage, whether it passed, and why. */
  datatype StageCheck = StageCheck(stage: Stage, passed: bool, reason: string)

  /** The result of an evaluation: `{authorized, reason, checks}`. */
  datatype Decision = Decision(authorized: bool, reason: string, checks: seq<StageCheck>)

  /** What the policy looks at, extracted from the claims. */
  datatype Subject = Subject(email: string, department: Option<string>, groups: seq<string>)

  const OnWhitelistReason := "User is on the whitelist"
  const NotOnWhitelistReason := "User not on whitelist"
  const PassedReason := "User passed all access control checks"
  const BlockedPrefix := "User belongs to blocked groups: "
  const RequiredPrefix := "User must belong to at least one of: "
  const MissingDepartmentReason := "No department information provided by ADFS"

  /** `x` occurs in `list` when both are lower-cased. */
  predicate ContainsIgnoringCase(list: seq<string>, x: string) {
    exists i :: 0 <= i < |list| && Lower(list[i]) == Lower(x)
  }

  /** Some group of the subject occurs in `list`, ignoring case. */
  predicate SharesGroup(groups: seq<string>, list: seq<string>) {
    exists i :: 0 <= i < |groups| && ContainsIgnoringCase(list, groups[i])
  }

  /** A present, non-empty department that matches an allowed one once both are
      trimmed and lower-cased. */
  predicate DepartmentAllowed(department: Option<string>, allowed: seq<string>) {
    && department.Some?
    && !Blank(department.value)
    && exists j :: 0 <= j < |allowed| && Lower(Trim(allowed[j])) == Lower(Trim(department.value))
  }

  predicate BlockedStageOn(p: Policy) {
    p.groupRestrictionEnabled && |p.blockedGroups| > 0
  }

  predicate RequiredStageOn(p: Policy) {
    p.groupRestrictionEnabled && |p.requiredGroups| > 0
  }

  predicate DepartmentStageOn(p: Policy) {
    p.departmentRestrictionEnabled && |p.allowedDepartments| > 0
  }

  lemma LowerAllMembership(list: seq<string>, x: string)
    ensures Lower(x) in LowerAll(list) <==> ContainsIgnoringCase(list, x)
  {
    if Lower(x) in LowerAll(list) {
      var i :| 0 <= i < |list| && LowerAll(list)[i] == Lower(x);
      assert Lower(list[i]) == Lower(x);
    }
  }

  /** The lower-cased intersection is non-empty exactly when a group is shared. */
  lemma IntersectionWitness(groups: seq<string>, list: seq<string>)
    ensures |Intersect(LowerAll(groups), LowerAll(list))| > 0 <==> SharesGroup(groups, list)
  {
    var hit := Intersect(LowerAll(groups), LowerAll(list));
    if |hit| > 0 {
      assert hit[0] in hit;
      var i :| 0 <= i < |groups| && LowerAll(groups)[i] == hit[0];
      LowerAllMembership(list, groups[i]);
    }
    if SharesGroup(groups, list) {
      var i :| 0 <= i < |groups| && ContainsIgnoringCase(list, groups[i]);
      LowerAllMembership(list, groups[i]);
      assert LowerAll(groups)[i] in LowerAll(groups);
      assert Lower(groups[i]) in hit;
    }
  }

  /** `checkWhitelist`: an empty whitelist passes; otherwise the email must be on
      it, ignoring case. */
  function CheckWhitelist(whitelist: seq<string>, email: string): (c: StageCheck)
    ensures c.stage == Whitelist
    ensures c.passed <==> |whitelist| == 0 || ContainsIgnoringCase(whitelist, email)
  {
    if |whitelist| == 0 then StageCheck(Whitelist, true, "No whitelist configured")
    else
      var listed := Lower(email) in LowerAll(whitelist);
      LowerAllMembership(whitelist, email);
      StageCheck(Whitelist, listed, if listed then "Email is whitelisted" else "Email not on whitelist")
  }

  /** `checkBlockedGroups`: fails when a group of the subject is blocked,
      ignoring case, naming the offending groups. */
  function CheckBlockedGroups(blocked: seq<string>, groups: seq<string>): (c: StageCheck)
    ensures c.stage == BlockedGroups
    ensures c.passed <==> |blocked| == 0 || !SharesGroup(groups, blocked)
    ensures !c.passed ==> |c.reason| >= |BlockedPrefix| && c.reason[..|BlockedPrefix|] == BlockedPrefix
  {
    if |blocked| == 0 then StageCheck(BlockedGroups, true, "No blocked groups configured")
    else
      var hit := Intersect(LowerAll(groups), LowerAll(blocked));
      IntersectionWitness(groups, blocked);
      if |hit| > 0 then StageCheck(BlockedGroups, false, BlockedPrefix + Join(hit, ", "))
      else StageCheck(BlockedGroups, true, "User does not belong to any blocked groups")
  }

  /** `checkRequiredGroups`: passes when some group of the subject is required,
      ignoring case. */
  function CheckRequiredGroups(required: seq<string>, groups: seq<string>): (c: StageCheck)
    ensures c.stage == RequiredGroups
    ensures c.passed <==> |required| == 0 || SharesGroup(groups, required)
    ensures !c.passed ==> c.reason == RequiredPrefix + Join(required, ", ")
  {
    if |required| == 0 then StageCheck(RequiredGroups, true, "No required groups configured")
    else
      var hit := Intersect(LowerAll(groups), LowerAll(required));
      IntersectionWitness(groups, required);
      if |hit| == 0 then StageCheck(RequiredGroups, false, RequiredPrefix + Join(required, ", "))
      else StageCheck(RequiredGroups, true, "User belongs to required groups: " + Join(hit, ", "))
  }

  lemma DepartmentMembership(allowed: seq<string>, department: Option<string>)
    requires department.Some? && !Blank(department.value)
    ensures Lower(Trim(department.value)) in LowerAll(TrimAll(allowed)) <==> DepartmentAllowed(department, allowed)
  {
    var d := department.value;
    if Lower(Trim(d)) in LowerAll(TrimAll(allowed)) {
      var j :| 0 <= j < |allowed| && LowerAll(TrimAll(allowed))[j] == Lower(Trim(d));
      assert Lower(Trim(allowed[j])) == Lower(Trim(d));
    }
    if DepartmentAllowed(department, allowed) {
      var j :| 0 <= j < |allowed| && Lower(Trim(allowed[j])) == Lower(Trim(d));
      assert LowerAll(TrimAll(allowed))[j] == Lower(Trim(d));
    }
  }

  /** `checkDepartment`: a missing or empty department fails; otherwise it must
      match an allowed department once both are trimmed and lower-cased. */
  function CheckDepartment(allowed: seq<string>, department: Option<string>): (c: StageCheck)
    ensures c.stage == Department
    ensures c.passed <==> |allowed| == 0 || DepartmentAllowed(department, allowed)
    ensures |allowed| > 0 && (department.None? || Blank(department.value)) ==> c.reason == MissingDepartmentReason
  {
    if |allowed| == 0 then StageCheck(Department, true, "No department restrictions configured")
    else if department.None? || Blank(department.value) then StageCheck(Department, false, MissingDepartmentReason)
    else
      var d := department.value;
      var ok := Lower(Trim(d)) in LowerAll(TrimAll(allowed));
      DepartmentMembership(allowed, department);
      StageCheck(Department, ok,
        if ok then "Department '" + d + "' is allowed"
        else "Department '" + d + "' is not in allowed list: " + Join(allowed, ", "))
  }

  /** The reference policy, stated without the evaluation order: with the
      whitelist on, the subject is admitted exactly when the whitelist is empty
      or lists the email; with it off, exactly when every stage that is on is
      satisfied. */
  ghost predicate Permits(p: Policy, s: Subject) {
    if p.whitelistEnabled then
      |p.whitelistEmails| == 0 || ContainsIgnoringCase(p.whitelistEmails, s.email)
    else
      && (BlockedStageOn(p) ==> !SharesGroup(s.groups, p.blockedGroups))
      && (RequiredStageOn(p) ==> SharesGroup(s.groups, p.requiredGroups))
      && (DepartmentStageOn(p) ==> DepartmentAllowed(s.department, p.allowedDepartments))
  }

  /** Whether the audit trail holds an entry for `st`, i.e. whether that stage ran. */
  predicate Ran(d: Decision, st: Stage) {
    exists i :: 0 <= i < |d.checks| && d.checks[i].stage == st
  }

  /** `d` with the entries of `trail` recorded ahead of its own. */
  function Prepend(trail: seq<StageCheck>, d: Decision): Decision {
    Decision(d.authorized, d.reason, trail + d.checks)
  }

  predicate BlockedOk(p: Policy, s: Subject) {
    BlockedStageOn(p) ==> !SharesGroup(s.groups, p.blockedGroups)
  }

  predicate RequiredOk(p: Policy, s: Subject) {
    RequiredStageOn(p) ==> SharesGroup(s.groups, p.requiredGroups)
  }

  predicate DepartmentOk(p: Policy, s: Subject) {
    DepartmentStageOn(p) ==> DepartmentAllowed(s.department, p.allowedDepartments)
  }

  /** The shape every stage evaluation from `first` on leaves behind: stages in
      order, none before `first`; only the last entry may fail, and does exactly
      when access is denied, the denial carrying its reason. */
  predicate Orderly(d: Decision, first: Stage) {
    && (forall i :: 0 <= i < |d.checks| ==> Rank(first) <= Rank(d.checks[i].stage))
    && (forall i, j :: 0 <= i < j < |d.checks| ==> Rank(d.checks[i].stage) < Rank(d.checks[j].stage))
    && (forall i :: 0 <= i < |d.checks| ==> (d.checks[i].passed <==> (d.authorized || i < |d.checks| - 1)))
    && (!d.authorized ==> |d.checks| > 0 && d.reason == d.checks[|d.checks| - 1].reason)
    && (d.authorized ==> d.reason == PassedReason)
  }

  /** Recording a passed stage ahead of a later evaluation keeps the trail
      orderly, and adds exactly that stage to the ones that ran. */
  lemma PrependPassed(c: StageCheck, rest: Decision, next: Stage)
    requires c.passed && Rank(c.stage) < Rank(next) && Orderly(rest, next)
    ensures Orderly(Prepend([c], rest), c.stage)
    ensures forall st :: Ran(Prepend([c], rest), st) <==> st == c.stage || Ran(rest, st)
  {
    var d := Prepend([c], rest);
    forall st | Ran(rest, st)
      ensures Ran(d, st)
    {
      var i :| 0 <= i < |rest.checks| && rest.checks[i].stage == st;
      assert d.checks[i + 1].stage == st;
    }
    forall st | Ran(d, st) && st != c.stage
      ensures Ran(rest, st)
    {
      var i :| 0 <= i < |d.checks| && d.checks[i].stage == st;
      assert rest.checks[i - 1].stage == st;
    }
    assert d.checks[0].stage == c.stage;
  }

  /** A single failed stage. */
  lemma SingleFailure(c: StageCheck)
    requires !c.passed
    ensures Orderly(Decision(false, c.reason, [c]), c.stage)
    ensures forall st :: Ran(Decision(false, c.reason, [c]), st) <==> st == c.stage
  {
  }

  /** Stage 4 and the final verdict. */
  function DepartmentStage(p: Policy, s: Subject): (d: Decision)
    ensures Orderly(d, Department)
    ensures d.authorized <==> DepartmentOk(p, s)
    ensures !Ran(d, Whitelist) && !Ran(d, BlockedGroups) && !Ran(d, RequiredGroups)
    ensures Ran(d, Department) <==> DepartmentStageOn(p)
  {
    if DepartmentStageOn(p) then
      var c := CheckDepartment(p.allowedDepartments, s.department);
      if !c.passed then Decision(false, c.reason, [c])
      else Decision(true, PassedReason, [c])
    else Decision(true, PassedReason, [])
  }

  /** Stage 3, then the rest. */
  function RequiredStage(p: Policy, s: Subject): (d: Decision)
    ensures Orderly(d, RequiredGroups)
    ensures d.authorized <==> RequiredOk(p, s) && DepartmentOk(p, s)
    ensures !Ran(d, Whitelist) && !Ran(d, BlockedGroups)
    ensures Ran(d, RequiredGroups) <==> RequiredStageOn(p)
    ensures Ran(d, Department) <==> RequiredOk(p, s) && DepartmentStageOn(p)
  {
    if RequiredStageOn(p) then
      var c := CheckRequiredGroups(p.requiredGroups, s.groups);
      if !c.passed then SingleFailure(c); Decision(false, c.reason, [c])
      else
        var rest := DepartmentStage(p, s);
        PrependPassed(c, rest, Department);
        Prepend([c], rest)
    else DepartmentStage(p, s)
  }

  /** Stage 2, then the rest. */
  function BlockedStage(p: Policy, s: Subject): (d: Decision)
    ensures Orderly(d, BlockedGroups)
    ensures d.authorized <==> BlockedOk(p, s) && RequiredOk(p, s) && DepartmentOk(p, s)
    ensures !Ran(d, Whitelist)
    ensures Ran(d, BlockedGroups) <==> BlockedStageOn(p)
    ensures Ran(d, RequiredGroups) <==> BlockedOk(p, s) && RequiredStageOn(p)
    ensures Ran(d, Department) <==> BlockedOk(p, s) && RequiredOk(p, s) && DepartmentStageOn(p)
  {
    if BlockedStageOn(p) then
      var c := CheckBlockedGroups(p.blockedGroups, s.groups);
      if !c.passed then
        assert !BlockedOk(p, s);
        SingleFailure(c); Decision(false, c.reason, [c])
      else
        assert BlockedOk(p, s);
        var rest := RequiredStage(p, s);
        PrependPassed(c, rest, RequiredGroups);
        Prepend([c], rest)
    else RequiredStage(p, s)
  }

  /** The body of `isUserAuthorized` once the subject is extracted. */
  function Decide(p: Policy, s: Subject): (d: Decision)
    // The verdict agrees with the order-free reference policy.
    ensures d.authorized <==> Permits(p, s)
    // Only two reasons accompany an authorization.
    ensures d.authorized ==> d.reason == (if p.whitelistEnabled then OnWhitelistReason else PassedReason)
    // Every early return denies, with the reason of the stage that failed.
    ensures !d.authorized ==>
      && |d.checks| > 0
      && !d.checks[|d.checks| - 1].passed
      && d.reason == (if d.checks[|d.checks| - 1].stage == Whitelist then NotOnWhitelistReason
                      else d.checks[|d.checks| - 1].reason)
    // Only the last stage recorded can have failed, and it failed iff access is denied.
    ensures forall i :: 0 <= i < |d.checks| ==> (d.checks[i].passed <==> (d.authorized || i < |d.checks| - 1))
    // Stages are recorded in evaluation order.
    ensures forall i, j :: 0 <= i < j < |d.checks| ==> Rank(d.checks[i].stage) < Rank(d.checks[j].stage)
    // With the whitelist on, it is the only stage that runs.
    ensures p.whitelistEnabled ==> |d.checks| == 1 && d.checks[0].stage == Whitelist
    // A stage runs exactly when it is on and every earlier stage passed.
    ensures Ran(d, Whitelist) <==> p.whitelistEnabled
    ensures Ran(d, BlockedGroups) <==> !p.whitelistEnabled && BlockedStageOn(p)
    ensures Ran(d, RequiredGroups) <==>
      && !p.whitelistEnabled
      && RequiredStageOn(p)
      && (BlockedStageOn(p) ==> !SharesGroup(s.groups, p.blockedGroups))
    ensures Ran(d, Department) <==>
      && !p.whitelistEnabled
      && DepartmentStageOn(p)
      && (BlockedStageOn(p) ==> !SharesGroup(s.groups, p.blockedGroups))
      && (RequiredStageOn(p) ==> SharesGroup(s.groups, p.requiredGroups))
  {
    if p.whitelistEnabled then
      var w := CheckWhitelist(p.whitelistEmails, s.email);
      if w.passed then Decision(true, OnWhitelistReason, [w])
      else if |p.whitelistEmails| > 0 then Decision(false, NotOnWhitelistReason, [w])
      else Prepend([w], BlockedStage(p, s))
    else BlockedStage(p, s)
  }

  /** Lines 28-30 of `isUserAuthorized`: email (default ""), department and the
      normalised groups, each through the configured claim aliases. */
  function ExtractSubject(mapping: ClaimMapping, claims: ClaimSet): (s: Subject)
    ensures s.email == ClaimText(claims, mapping, "email").GetOr("")
    ensures s.department == ClaimText(claims, mapping, "department")
    ensures s.groups == ClaimGroups(claims, mapping)
  {
    Subject(ClaimText(claims, mapping, "email").GetOr(""),
            ClaimText(claims, mapping, "department"),
            ClaimGroups(claims, mapping))
  }

  /** The `access_control` block as configured. The three toggles are read
      without a default, so each may be missing; the lists are only read
      through `empty()` or `?? []`, where a missing list is an empty one. */
  datatype AccessConfig = AccessConfig(
    whitelistEnabled: Option<bool>,
    whitelistEmails: seq<string>,
    groupRestrictionEnabled: Option<bool>,
    blockedGroups: seq<string>,
    requiredGroups: seq<string>,
    departmentRestrictionEnabled: Option<bool>,
    allowedDepartments: seq<string>)

  /** No `access_control` block at all: the `[]` the proxy passes for it. */
  const Unconfigured := AccessConfig(None, [], None, [], [], None, [])

  predicate Configured(c: AccessConfig) {
    c.whitelistEnabled.Some? && c.groupRestrictionEnabled.Some? && c.departmentRestrictionEnabled.Some?
  }

  /** The policy `c` describes, a missing toggle read as off. */
  function Settled(c: AccessConfig): Policy {
    Policy(c.whitelistEnabled.GetOr(false), c.whitelistEmails,
           c.groupRestrictionEnabled.GetOr(false), c.blockedGroups, c.requiredGroups,
           c.departmentRestrictionEnabled.GetOr(false), c.allowedDepartments)
  }

  /** `q` sets every toggle `c` sets, to the same value, and has its lists. */
  predicate Completes(q: Policy, c: AccessConfig) {
    && (c.whitelistEnabled.Some? ==> q.whitelistEnabled == c.whitelistEnabled.value)
    && (c.groupRestrictionEnabled.Some? ==> q.groupRestrictionEnabled == c.groupRestrictionEnabled.value)
    && (c.departmentRestrictionEnabled.Some? ==> q.departmentRestrictionEnabled == c.departmentRestrictionEnabled.value)
    && q.whitelistEmails == c.whitelistEmails
    && q.blockedGroups == c.blockedGroups
    && q.requiredGroups == c.requiredGroups
    && q.allowedDepartments == c.allowedDepartments
  }

  /** The reference admission, stated without the evaluation order: every
      toggle the evaluation reaches is set, and the subject satisfies every
      stage that is on. */
  ghost predicate Admits(c: AccessConfig, s: Subject) {
    match c.whitelistEnabled
    case None => false
    case Some(on) =>
      if on then |c.whitelistEmails| == 0 || ContainsIgnoringCase(c.whitelistEmails, s.email)
      else
        && c.groupRestrictionEnabled.Some?
        && BlockedOk(Settled(c), s) && RequiredOk(Settled(c), s)
        && c.departmentRestrictionEnabled.Some?
        && DepartmentOk(Settled(c), s)
  }

  /** `isUserAuthorized` on the block as configured: a toggle is read only when
      evaluation reaches it, and a missing one raises there. */
  function Authorize(c: AccessConfig, s: Subject): (r: Result<Decision, ConfigError>)
    // Line 31 reads the whitelist toggle on every call.
    ensures c.whitelistEnabled.None? ==> r == Err(UndefinedKey("whitelist_enabled"))
    // Lines 51 and 63 read the group toggle only with the whitelist off.
    ensures c.whitelistEnabled == Some(false) && c.groupRestrictionEnabled.None? ==>
      r == Err(UndefinedKey("group_restriction_enabled"))
    // Line 75 reads the department toggle only once both group stages passed.
    ensures c.whitelistEnabled == Some(false) && c.groupRestrictionEnabled.Some? ==>
      (r.Err? <==> c.departmentRestrictionEnabled.None? && BlockedOk(Settled(c), s) && RequiredOk(Settled(c), s))
    ensures c.whitelistEnabled == Some(false) && c.groupRestrictionEnabled.Some? && r.Err? ==>
      r.error == UndefinedKey("department_restriction_enabled")
    // With the whitelist on, nothing else is read.
    ensures c.whitelistEnabled == Some(true) ==> r.Ok?
    ensures Configured(c) ==> r.Ok?
    // A decision is the one the described policy reaches, and it admits
    // exactly when the reference admission does.
    ensures r.Ok? ==> r.value == Decide(Settled(c), s)
    ensures r.Ok? && r.value.authorized <==> Admits(c, s)
  {
    match c.whitelistEnabled
    case None => Err(UndefinedKey("whitelist_enabled"))
    case Some(on) =>
      if on then Ok(Decide(Settled(c), s))
      else if c.groupRestrictionEnabled.None? then Err(UndefinedKey("group_restriction_enabled"))
      else if c.departmentRestrictionEnabled.None? && BlockedOk(Settled(c), s) && RequiredOk(Settled(c), s)
      then Err(UndefinedKey("department_restriction_enabled"))
      else Ok(Decide(Settled(c), s))
  }

  /** A toggle left unset and therefore read as off is one the evaluation
      never reads: any value for it gives the same decision. */
  lemma UnreadTogglesDoNotMatter(c: AccessConfig, q: Policy, s: Subject)
    requires Authorize(c, s).Ok?
    requires Completes(q, c)
    ensures Decide(q, s) == Authorize(c, s).value
  {
    if !c.whitelistEnabled.value && c.departmentRestrictionEnabled.None? {
      assert !(BlockedOk(q, s) && RequiredOk(q, s));
    } else if c.whitelistEnabled.value {
      assert |q.whitelistEmails| == 0 ==> CheckWhitelist(q.whitelistEmails, s.email).passed;
    } else {
      assert q == Settled(c);
    }
  }

  /** `isUserAuthorized`. */
  function IsUserAuthorized(c: AccessConfig, mapping: ClaimMapping, claims: ClaimSet): (r: Result<Decision, ConfigError>)
    ensures c.whitelistEnabled.None? ==> r == Err(UndefinedKey("whitelist_enabled"))
    ensures Configured(c) ==> r.Ok?
    ensures r.Ok? ==> (r.value.authorized <==> Permits(Settled(c), ExtractSubject(mapping, claims)))
    ensures r.Ok? && r.value.authorized <==> Admits(c, ExtractSubject(mapping, claims))
  {
    Authorize(c, ExtractSubject(mapping, claims))
  }

  /** Without an `access_control` block every user is refused with the
      undefined-key error before any stage runs. */
  lemma MissingBlockRaises(mapping: ClaimMapping, claims: ClaimSet)
    ensures IsUserAuthorized(Unconfigured, mapping, claims) == Err(UndefinedKey("whitelist_enabled"))
    ensures !Admits(Unconfigured, ExtractSubject(mapping, claims))
  {
  }

  /** Blocked groups are checked before required ones: a subject in a blocked
      group is turned away for that reason even when it also lacks every
      required group, and neither later stage runs. */
  lemma BlockedBeforeRequired(p: Policy, s: Subject)
    requires !p.whitelistEnabled && BlockedStageOn(p)
    requires SharesGroup(s.groups, p.blockedGroups)
    ensures !Decide(p, s).authorized
    ensures Decide(p, s).reason == CheckBlockedGroups(p.blockedGroups, s.groups).reason
    ensures |BlockedPrefix| <= |Decide(p, s).reason| && Decide(p, s).reason[..|BlockedPrefix|] == BlockedPrefix
    ensures !Ran(Decide(p, s), RequiredGroups) && !Ran(Decide(p, s), Department)
  {
  }

  /** An enabled, non-empty whitelist decides alone: a listed email is admitted
      whatever its groups and department, any other email is refused. */
  lemma WhitelistOverrides(p: Policy, s: Subject)
    requires p.whitelistEnabled && |p.whitelistEmails| > 0
    ensures ContainsIgnoringCase(p.whitelistEmails, s.email) ==>
      Decide(p, s) == Decision(true, OnWhitelistReason, [CheckWhitelist(p.whitelistEmails, s.email)])
    ensures !ContainsIgnoringCase(p.whitelistEmails, s.email) ==>
      Decide(p, s) == Decision(false, NotOnWhitelistReason, [CheckWhitelist(p.whitelistEmails, s.email)])
  {
  }

  /** An enabled but empty whitelist admits everyone at once: no group or
      department stage runs. */
  lemma EmptyWhitelistAdmits(p: Policy, s: Subject)
    requires p.whitelistEnabled && |p.whitelistEmails| == 0
    ensures Decide(p, s).authorized && Decide(p, s).reason == OnWhitelistReason
    ensures !Ran(Decide(p, s), BlockedGroups) && !Ran(Decide(p, s), RequiredGroups) && !Ran(Decide(p, s), Department)
  {
  }
}

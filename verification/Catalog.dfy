/** Catalog validation, lookups and the runtime recommendation (comfyctl/catalog.py). */
module Catalog {
  import opened Wrappers
  import opened Text
  import opened Versions

  /** The JSON scalars an entry can hold under a key; `Absent` stands for a key that is not there.
      `get` makes no difference between an absent key and null, a subscript does. */
  datatype Json = Absent | Null | Text(text: string) | Number(number: int)

  const FALSY := {Absent, Null, Text(""), Number(0)}

  predicate Truthy(value: Json)
    ensures Truthy(value) <==> value !in FALSY
  {
    match value
    case Absent => false
    case Null => false
    case Text(text) => text != ""
    case Number(number) => number != 0
  }

  /** `str(value)`. */
  function Printed(value: Json): (r: string)
    ensures value.Text? ==> Text(r) == value
    ensures value.Number? && value.number >= 0 ==> AllDigits(r) && ValueOf(r) == value.number
    ensures value.Number? && value.number < 0 ==>
              r != "" && r[0] == '-' && AllDigits(r[1..]) && ValueOf(r[1..]) == -value.number
  {
    match value
    case Absent => "None"
    case Null => "None"
    case Text(text) => text
    case Number(number) => if number < 0 then "-" + Decimal(-number) else Decimal(number)
  }

  datatype Version = Version(id: Json, versionLabel: Json, channel: Json, sourceType: Json, ref: Json, advanced: bool)

  /** `packages` of a profile: nothing or an empty value, a table, or a truthy value of another kind. */
  datatype Packages = NoPackages | Table(packages: map<string, string>) | NotATable

  datatype Profile = Profile(id: Json, profileLabel: Json, pythonVersion: Json, torchProfile: Json,
                             advanced: bool, backend: Json, packages: Packages)

  datatype Rule = Rule(id: Json, vendor: Json, cudaMin: Json, versionId: Json, profileId: Json, firstGpu: bool)

  /** An entry that is not a JSON object is `None`, and so is a list that is not a list. */
  datatype Catalog = Catalog(github: bool, versions: Option<seq<Option<Version>>>,
                             profiles: Option<seq<Option<Profile>>>, rules: Option<seq<Option<Rule>>>)

  const TORCH_NAMES: set<string> := {"torch", "torchvision", "torchaudio"}

  // ---------------------------------------------------------- a valid catalog

  function VersionId(entry: Option<Version>): Json {
    if entry.Some? then entry.value.id else Absent
  }

  function ProfileId(entry: Option<Profile>): Json {
    if entry.Some? then entry.value.id else Absent
  }

  function TorchProfile(entry: Option<Profile>): Json {
    if entry.Some? then entry.value.torchProfile else Absent
  }

  ghost predicate VersionComplete(entry: Option<Version>) {
    && entry.Some?
    && var v := entry.value;
       && FALSY !! {v.id, v.versionLabel, v.channel, v.sourceType, v.ref}
       && v.sourceType in {Text("release"), Text("snapshot"), Text("branch")}
  }

  /** The packages that a profile with its own wheels must pin. */
  ghost predicate PinsTorch(profile: Profile) {
    profile.packages.Table? && {"torch", "torchvision", "torchaudio"} <= profile.packages.packages.Keys
  }

  ghost predicate ProfileComplete(entry: Option<Profile>) {
    && entry.Some?
    && var p := entry.value;
       && FALSY !! {p.id, p.profileLabel, p.pythonVersion, p.torchProfile}
       && (p.backend == Text("requirements") || PinsTorch(p))
  }

  ghost predicate VersionsApart(versions: seq<Option<Version>>) {
    forall i, j | 0 <= i < j < |versions| :: VersionId(versions[i]) != VersionId(versions[j])
  }

  ghost predicate ValidVersions(versions: seq<Option<Version>>) {
    && (forall v <- versions :: VersionComplete(v))
    && VersionsApart(versions)
    && (exists v <- versions :: v.Some? && !v.value.advanced)
  }

  ghost predicate ProfilesApart(profiles: seq<Option<Profile>>) {
    forall i, j | 0 <= i < j < |profiles| ::
      ProfileId(profiles[i]) != ProfileId(profiles[j]) && TorchProfile(profiles[i]) != TorchProfile(profiles[j])
  }

  ghost predicate ValidProfiles(profiles: seq<Option<Profile>>) {
    && (forall p <- profiles :: ProfileComplete(p))
    && ProfilesApart(profiles)
    && (exists p <- profiles :: p.Some? && !p.value.advanced)
  }

  ghost predicate RuleKnown(rule: Option<Rule>, versionIds: set<Json>, profileIds: set<Json>) {
    rule.Some? && rule.value.versionId in versionIds && rule.value.profileId in profileIds
  }

  function VersionIds(versions: seq<Option<Version>>): set<Json> {
    set v <- versions :: VersionId(v)
  }

  function ProfileIds(profiles: seq<Option<Profile>>): set<Json> {
    set p <- profiles :: ProfileId(p)
  }

  function TorchProfiles(profiles: seq<Option<Profile>>): set<Json> {
    set p <- profiles :: TorchProfile(p)
  }

  ghost predicate ValidCatalog(c: Catalog) {
    && c.github && c.versions.Some? && c.profiles.Some? && c.rules.Some? && c.rules.value != []
    && ValidVersions(c.versions.value)
    && ValidProfiles(c.profiles.value)
    && forall rule <- c.rules.value :: RuleKnown(rule, VersionIds(c.versions.value), ProfileIds(c.profiles.value))
  }

  // --------------------------------------------------------------- validation

  lemma VersionIdsExtend(versions: seq<Option<Version>>, i: nat)
    requires i < |versions|
    ensures VersionIds(versions[..i + 1]) == VersionIds(versions[..i]) + {VersionId(versions[i])}
    ensures VersionsApart(versions[..i + 1]) <==>
            VersionsApart(versions[..i]) && VersionId(versions[i]) !in VersionIds(versions[..i])
  {}

  lemma ProfileIdsExtend(profiles: seq<Option<Profile>>, i: nat)
    requires i < |profiles|
    ensures ProfileIds(profiles[..i + 1]) == ProfileIds(profiles[..i]) + {ProfileId(profiles[i])}
    ensures TorchProfiles(profiles[..i + 1]) == TorchProfiles(profiles[..i]) + {TorchProfile(profiles[i])}
    ensures ProfilesApart(profiles[..i + 1]) <==>
      ProfilesApart(profiles[..i])
      && ProfileId(profiles[i]) !in ProfileIds(profiles[..i])
      && TorchProfile(profiles[i]) !in TorchProfiles(profiles[..i])
  {}

  /** The checks on `versions`; `ids` is the set the rules are checked against. */
  method ValidateVersions(versions: seq<Option<Version>>) returns (accepted: bool, ids: set<Json>)
    ensures accepted <==> ValidVersions(versions)
    ensures accepted ==> ids == VersionIds(versions)
  {
    ids := {};
    var visible := 0;
    for i := 0 to |versions|
      invariant forall k | 0 <= k < i :: VersionComplete(versions[k])
      invariant VersionsApart(versions[..i])
      invariant ids == VersionIds(versions[..i])
      invariant 0 <= visible
      invariant visible > 0 <==> exists k | 0 <= k < i :: versions[k].Some? && !versions[k].value.advanced
    {
      var entry := versions[i];
      assert entry in versions;
      if entry.None? { return false, {}; }
      var v := entry.value;
      if !Truthy(v.id) || !Truthy(v.versionLabel) || !Truthy(v.channel) || !Truthy(v.sourceType) || !Truthy(v.ref) {
        return false, {};
      }
      if v.sourceType !in {Text("release"), Text("snapshot"), Text("branch")} { return false, {}; }
      if !entry.value.advanced { visible := visible + 1; }
      VersionIdsExtend(versions, i);
      if entry.value.id in ids { return false, {}; }
      ids := ids + {entry.value.id};
    }
    assert versions[..|versions|] == versions;
    accepted := visible >= 1;
  }

  method ValidateProfiles(profiles: seq<Option<Profile>>) returns (accepted: bool, ids: set<Json>)
    ensures accepted <==> ValidProfiles(profiles)
    ensures accepted ==> ids == ProfileIds(profiles)
  {
    ids := {};
    var torchProfiles: set<Json> := {};
    var visible := 0;
    for i := 0 to |profiles|
      invariant forall k | 0 <= k < i :: ProfileComplete(profiles[k])
      invariant ProfilesApart(profiles[..i])
      invariant ids == ProfileIds(profiles[..i])
      invariant torchProfiles == TorchProfiles(profiles[..i])
      invariant 0 <= visible
      invariant visible > 0 <==> exists k | 0 <= k < i :: profiles[k].Some? && !profiles[k].value.advanced
    {
      var entry := profiles[i];
      assert entry in profiles;
      if entry.None? { return false, {}; }
      var p := entry.value;
      if !Truthy(p.id) || !Truthy(p.profileLabel) || !Truthy(p.pythonVersion) || !Truthy(p.torchProfile) {
        return false, {};
      }
      if p.backend != Text("requirements") && !(p.packages.Table? && TORCH_NAMES <= p.packages.packages.Keys) {
        return false, {};
      }
      if !entry.value.advanced { visible := visible + 1; }
      ProfileIdsExtend(profiles, i);
      if entry.value.id in ids || entry.value.torchProfile in torchProfiles { return false, {}; }
      ids := ids + {entry.value.id};
      torchProfiles := torchProfiles + {entry.value.torchProfile};
    }
    assert profiles[..|profiles|] == profiles;
    accepted := visible >= 1;
  }

  /** `_validate_catalog`: every rejection raises `ValueError`. */
  method ValidateCatalog(c: Catalog) returns (accepted: bool)
    ensures accepted <==> ValidCatalog(c)
  {
    if !c.github || c.versions.None? || c.versions.value == [] || c.profiles.None? || c.profiles.value == []
      || c.rules.None? || c.rules.value == []
    {
      return false;
    }
    var versionsAccepted, versionIds := ValidateVersions(c.versions.value);
    if !versionsAccepted { return false; }
    var profilesAccepted, profileIds := ValidateProfiles(c.profiles.value);
    if !profilesAccepted { return false; }
    for i := 0 to |c.rules.value|
      invariant forall k | 0 <= k < i :: RuleKnown(c.rules.value[k], versionIds, profileIds)
    {
      var rule := c.rules.value[i];
      assert rule in c.rules.value;
      if rule.None? || rule.value.versionId !in versionIds || rule.value.profileId !in profileIds { return false; }
    }
    accepted := true;
  }

  // ------------------------------------------------------------------ lookups

  /** `version_by_id`: the first entry whose id is that text; `None` is a `KeyError`. */
  method VersionById(versions: seq<Option<Version>>, key: string) returns (found: Option<Version>)
    ensures found == FirstVersion(versions, key)
  {
    for i := 0 to |versions|
      invariant FirstVersion(versions, key) == FirstVersion(versions[i..], key)
    {
      if VersionId(versions[i]) == Text(key) { return versions[i]; }
      assert versions[i..][1..] == versions[i + 1..];
    }
    found := None;
  }

  method ProfileById(profiles: seq<Option<Profile>>, key: string) returns (found: Option<Profile>)
    ensures found == FirstProfile(profiles, key)
  {
    for i := 0 to |profiles|
      invariant FirstProfile(profiles, key) == FirstProfile(profiles[i..], key)
    {
      if ProfileId(profiles[i]) == Text(key) { return profiles[i]; }
      assert profiles[i..][1..] == profiles[i + 1..];
    }
    found := None;
  }

  function FirstVersion(versions: seq<Option<Version>>, key: string): (r: Option<Version>)
    ensures r.Some? <==> Text(key) in VersionIds(versions)
    ensures r.Some? ==> r.value.id == Text(key) && r in versions
  {
    if versions == [] then None
    else if VersionId(versions[0]) == Text(key) then versions[0]
    else
      assert versions == [versions[0]] + versions[1..];
      FirstVersion(versions[1..], key)
  }

  function FirstProfile(profiles: seq<Option<Profile>>, key: string): (r: Option<Profile>)
    ensures r.Some? <==> Text(key) in ProfileIds(profiles)
    ensures r.Some? ==> r.value.id == Text(key) && r in profiles
  {
    if profiles == [] then None
    else if ProfileId(profiles[0]) == Text(key) then profiles[0]
    else
      assert profiles == [profiles[0]] + profiles[1..];
      FirstProfile(profiles[1..], key)
  }

  // ----------------------------------------------------------- recommendation

  /** `Raised` is the `KeyError` of a lookup, `NoMatch` the `ValueError` at the end of the rules. */
  datatype Recommendation =
    | Recommended(ruleId: Json, version: Version, profile: Profile, gpus: seq<string>)
    | Raised
    | NoMatch

  predicate Matches(rule: Rule, vendor: string, cuda: Option<string>) {
    rule.vendor == Text(vendor) && (Truthy(rule.cudaMin) ==> VersionAtLeast(cuda, Printed(rule.cudaMin)))
  }

  function VendorOf(gpus: seq<string>): string {
    if gpus != [] then "nvidia" else "none"
  }

  predicate AllRules(rules: seq<Option<Rule>>) {
    forall i | 0 <= i < |rules| :: rules[i].Some?
  }

  lemma ValidRules(c: Catalog)
    requires ValidCatalog(c)
    ensures AllRules(c.rules.value)
  {
    var rules := c.rules.value;
    forall i | 0 <= i < |rules| ensures rules[i].Some? {
      assert RuleKnown(rules[i], VersionIds(c.versions.value), ProfileIds(c.profiles.value));
    }
  }

  /** Position of the first matching rule, or the number of rules. */
  function FirstMatch(rules: seq<Option<Rule>>, vendor: string, cuda: Option<string>): (k: nat)
    requires AllRules(rules)
    ensures k <= |rules|
    ensures forall i | 0 <= i < k :: !Matches(rules[i].value, vendor, cuda)
    ensures k < |rules| ==> Matches(rules[k].value, vendor, cuda)
  {
    if rules == [] || Matches(rules[0].value, vendor, cuda) then 0 else 1 + FirstMatch(rules[1..], vendor, cuda)
  }

  /** What a matching rule leads to. */
  function FromRule(c: Catalog, rule: Rule, gpus: seq<string>): Recommendation
    requires c.versions.Some? && c.profiles.Some?
  {
    var version := FirstVersion(c.versions.value, Printed(rule.versionId));
    var profile := FirstProfile(c.profiles.value, Printed(rule.profileId));
    if version.None? || profile.None? || rule.id.Absent? then Raised
    else Recommended(rule.id, version.value, profile.value, if rule.firstGpu && gpus != [] then gpus[..1] else [])
  }

  /** The rule is for hosts with or without a device, whichever this one is, and asks for no more than its
      CUDA version. */
  ghost predicate Fits(rule: Rule, cuda: Option<string>, gpus: seq<string>) {
    && rule.vendor == Text(if gpus == [] then "none" else "nvidia")
    && (rule.cudaMin in {Absent, Null, Text(""), Number(0)} || VersionAtLeast(cuda, Printed(rule.cudaMin)))
  }

  lemma MatchesMeans(rule: Rule, cuda: Option<string>, gpus: seq<string>)
    ensures Matches(rule, VendorOf(gpus), cuda) <==> Fits(rule, cuda, gpus)
  {}

  /** Rule `k` is the first that fits. */
  ghost predicate Decides(rules: seq<Option<Rule>>, k: nat, cuda: Option<string>, gpus: seq<string>) {
    && k < |rules| && rules[k].Some? && Fits(rules[k].value, cuda, gpus)
    && forall j | 0 <= j < k :: rules[j].Some? && !Fits(rules[j].value, cuda, gpus)
  }

  lemma FirstMatchMeans(rules: seq<Option<Rule>>, cuda: Option<string>, gpus: seq<string>)
    requires AllRules(rules)
    ensures var k := FirstMatch(rules, VendorOf(gpus), cuda);
      if k == |rules| then forall rule <- rules :: rule.Some? && !Fits(rule.value, cuda, gpus)
      else Decides(rules, k, cuda, gpus)
  {
    forall i | 0 <= i < |rules|
      ensures Matches(rules[i].value, VendorOf(gpus), cuda) <==> Fits(rules[i].value, cuda, gpus)
    {
      MatchesMeans(rules[i].value, cuda, gpus);
    }
  }

  /** The answer names the rule, the listed version and profile with the printed ids, and the first device if
      the rule wants one. It raises when the rule has no id or one of the two is not listed. */
  ghost predicate Answers(c: Catalog, rule: Rule, gpus: seq<string>, r: Recommendation)
    requires c.versions.Some? && c.profiles.Some?
  {
    match r
    case Recommended(ruleId, version, profile, indexes) =>
      && ruleId == rule.id != Absent
      && Some(version) in c.versions.value && version.id == Text(Printed(rule.versionId))
      && Some(profile) in c.profiles.value && profile.id == Text(Printed(rule.profileId))
      && indexes == if rule.firstGpu && gpus != [] then [gpus[0]] else []
    case Raised =>
      || rule.id == Absent
      || (forall v | Some(v) in c.versions.value :: v.id != Text(Printed(rule.versionId)))
      || (forall p | Some(p) in c.profiles.value :: p.id != Text(Printed(rule.profileId)))
    case NoMatch => false
  }

  lemma FromRuleMeans(c: Catalog, rule: Rule, gpus: seq<string>)
    requires c.versions.Some? && c.profiles.Some?
    ensures Answers(c, rule, gpus, FromRule(c, rule, gpus))
  {
    forall v | Some(v) in c.versions.value ensures v.id in VersionIds(c.versions.value) {
      assert VersionId(Some(v)) == v.id;
    }
    forall p | Some(p) in c.profiles.value ensures p.id in ProfileIds(c.profiles.value) {
      assert ProfileId(Some(p)) == p.id;
    }
  }

  /** `recommendation`: `gpus` are the indexes of the detected devices. Only validated catalogs are loaded. */
  method Recommend(c: Catalog, cuda: Option<string>, gpus: seq<string>) returns (r: Recommendation)
    requires ValidCatalog(c)
    ensures if r.NoMatch? then forall rule <- c.rules.value :: rule.Some? && !Fits(rule.value, cuda, gpus)
            else exists k: nat :: Decides(c.rules.value, k, cuda, gpus) && Answers(c, c.rules.value[k].value, gpus, r)
    ensures AllRules(c.rules.value)
    ensures var k := FirstMatch(c.rules.value, VendorOf(gpus), cuda);
      r == if k == |c.rules.value| then NoMatch else FromRule(c, c.rules.value[k].value, gpus)
  {
    var vendor := if gpus != [] then "nvidia" else "none";
    var rules := c.rules.value;
    ValidRules(c);
    FirstMatchMeans(rules, cuda, gpus);
    for i := 0 to |rules|
      invariant FirstMatch(rules, vendor, cuda) == i + FirstMatch(rules[i..], vendor, cuda)
    {
      var rule := rules[i].value;
      assert rules[i..][1..] == rules[i + 1..];
      if rule.vendor != Text(vendor) { continue; }
      if Truthy(rule.cudaMin) && !VersionAtLeast(cuda, Printed(rule.cudaMin)) { continue; }
      r := Follow(c, rule, gpus);
      FromRuleMeans(c, rule, gpus);
      return;
    }
    r := NoMatch;
  }

  /** The rest of the loop body, for the rule that matches. */
  method Follow(c: Catalog, rule: Rule, gpus: seq<string>) returns (r: Recommendation)
    requires c.versions.Some? && c.profiles.Some?
    ensures r == FromRule(c, rule, gpus)
  {
    var version := VersionById(c.versions.value, Printed(rule.versionId));
    if version.None? { return Raised; }
    var profile := ProfileById(c.profiles.value, Printed(rule.profileId));
    if profile.None? { return Raised; }
    var indexes := if rule.firstGpu && gpus != [] then [gpus[0]] else [];
    if rule.id.Absent? { return Raised; }
    r := Recommended(rule.id, version.value, profile.value, indexes);
  }

  /** `newer` is at least the version `older`, or `older` satisfies no minimum at all. */
  predicate Raises(older: Option<string>, newer: Option<string>) {
    !HasNumber(older) || (older.Some? && VersionAtLeast(newer, older.value))
  }

  lemma MatchSurvives(rule: Rule, vendor: string, older: Option<string>, newer: Option<string>)
    requires Raises(older, newer) && Matches(rule, vendor, older)
    ensures Matches(rule, vendor, newer)
  {
    if Truthy(rule.cudaMin) { VersionsTransitive(newer, older.value, Printed(rule.cudaMin)); }
  }

  /** Raising the CUDA version never moves the recommendation to a later rule, nor from a rule to none. */
  lemma RaisingNeverMovesLater(rules: seq<Option<Rule>>, vendor: string, older: Option<string>, newer: Option<string>)
    requires AllRules(rules)
    requires Raises(older, newer)
    ensures FirstMatch(rules, vendor, newer) <= FirstMatch(rules, vendor, older)
  {
    var k := FirstMatch(rules, vendor, older);
    if k < |rules| { MatchSurvives(rules[k].value, vendor, older, newer); }
  }

  // ------------------------------------------------- lookups of a valid catalog

  /** An id that a lookup by text can find: a text, or a number whose printed form is listed as well. */
  predicate Findable(id: Json, listed: set<Json>) {
    id.Text? || Text(Printed(id)) in listed
  }

  /** Validation compares ids as JSON values, the lookup as text. So on a validated catalog a matching
      rule raises exactly when it has no id of its own or names a numeric id that is not findable. */
  lemma RuleRaisesIff(c: Catalog, rule: Rule, gpus: seq<string>)
    requires ValidCatalog(c) && Some(rule) in c.rules.value
    ensures FromRule(c, rule, gpus).Raised? <==>
      || rule.id.Absent?
      || !Findable(rule.versionId, VersionIds(c.versions.value))
      || !Findable(rule.profileId, ProfileIds(c.profiles.value))
  {}

  /** All ids of the rules are texts. */
  predicate TextIds(c: Catalog) {
    && c.rules.Some?
    && forall rule <- c.rules.value :: rule.Some? ==> rule.value.versionId.Text? && rule.value.profileId.Text?
  }

  /** With textual ids and named rules, a validated catalog answers every host without a lookup error,
      and it answers with the very entries the rule names. */
  lemma TextIdsNeverRaise(c: Catalog, rule: Rule, gpus: seq<string>)
    requires ValidCatalog(c) && Some(rule) in c.rules.value
    requires TextIds(c)
    ensures var r := FromRule(c, rule, gpus);
      && (r.Raised? <==> rule.id.Absent?)
      && (!rule.id.Absent? ==>
            r.Recommended? && r.ruleId == rule.id && r.version.id == rule.versionId && r.profile.id == rule.profileId
            && Some(r.version) in c.versions.value && Some(r.profile) in c.profiles.value)
  {}

  /** A catalog whose only version has the id 1. */
  function NumericCatalog(): Catalog {
    var version := Version(Number(1), Text("one"), Text("stable"), Text("branch"), Text("master"), false);
    var profile :=
      Profile(Text("p"), Text("p"), Text("3.12"), Text("requirements"), false, Text("requirements"), NoPackages);
    Catalog(true, Some([Some(version)]), Some([Some(profile)]), Some([Some(NumericRule())]))
  }

  function NumericRule(): Rule {
    Rule(Text("r"), Text("none"), Absent, Number(1), Text("p"), false)
  }

  lemma NumericCatalogIsValid()
    ensures ValidCatalog(NumericCatalog())
  {
    var c := NumericCatalog();
    var version, profile := c.versions.value[0], c.profiles.value[0];
    assert VersionId(version) in VersionIds(c.versions.value) && ProfileId(profile) in ProfileIds(c.profiles.value);
    assert version in c.versions.value && profile in c.profiles.value;
  }

  /** It is validated, but the lookup of "1" fails. */
  lemma NumericIdRaises()
    ensures var c, rule := NumericCatalog(), NumericRule();
      ValidCatalog(c) && c.rules == Some([Some(rule)]) && !rule.id.Absent? && FromRule(c, rule, []).Raised?
  {
    NumericCatalogIsValid();
    assert Text(Printed(Number(1))) !in VersionIds(NumericCatalog().versions.value);
  }
}

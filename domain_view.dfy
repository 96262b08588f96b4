/**
 * The domain page (src/pages/DomainView.tsx): normalising the route
 * parameter to a domain name, the skills and open quests of that domain,
 * its summed XP and highest level, and the add-skill handler.
 */
module DomainView {
  import opened Wrappers
  import opened Types
  import opened Seqs
  import opened Strings
  import opened Progression
  import opened StoreModel
  import opened Store

  /** `s.charAt(0).toUpperCase() + s.slice(1).toLowerCase()`. */
  function Capitalize(s: string): (r: string)
    ensures |r| == |s|
  {
    if s == [] then [] else ToUpper(s[..1]) + ToLower(s[1..])
  }

  /** `formattedDomain`, the route parameter defaulting to 'physical'. */
  function FormattedDomain(param: Option<string>): string {
    Capitalize(param.GetOr("physical"))
  }

  /** The domain a formatted name denotes, if any. */
  function ParseDomain(name: string): (r: Option<Domain>)
    ensures r.Some? ==> DomainName(r.value) == name
    ensures r.None? ==> forall d: Domain :: DomainName(d) != name
  {
    if name == "Physical" then Some(Physical)
    else if name == "Mental" then Some(Mental)
    else if name == "Technical" then Some(Technical)
    else if name == "Creative" then Some(Creative)
    else None
  }

  lemma CaseLaws(s: string)
    ensures ToUpper(ToLower(s)) == ToUpper(s)
    ensures ToLower(ToLower(s)) == ToLower(s)
    ensures ToUpper(ToUpper(s)) == ToUpper(s)
  {
  }

  lemma LowerFixed(s: string)
    requires forall i :: 0 <= i < |s| ==> !('A' <= s[i] <= 'Z')
    ensures ToLower(s) == s
  {
  }

  lemma UpperFixed(s: string)
    requires forall i :: 0 <= i < |s| ==> !('a' <= s[i] <= 'z')
    ensures ToUpper(s) == s
  {
  }

  /** Only the letters' case of the parameter matters. */
  lemma CapitalizeIgnoresCase(s: string)
    ensures Capitalize(ToLower(s)) == Capitalize(s)
  {
    if s != [] {
      assert ToLower(s)[..1] == ToLower(s[..1]);
      assert ToLower(s)[1..] == ToLower(s[1..]);
      CaseLaws(s[..1]);
      CaseLaws(s[1..]);
    }
  }

  /** Formatting twice changes nothing. */
  lemma CapitalizeIdempotent(s: string)
    ensures Capitalize(Capitalize(s)) == Capitalize(s)
  {
    if s != [] {
      var c := Capitalize(s);
      assert c[..1] == ToUpper(s[..1]) && c[1..] == ToLower(s[1..]);
      CaseLaws(s[..1]);
      CaseLaws(s[1..]);
    }
  }

  /** The domain names are already in the formatted shape. */
  lemma DomainNameFormatted(d: Domain)
    ensures Capitalize(DomainName(d)) == DomainName(d)
  {
    var n := DomainName(d);
    UpperFixed(n[..1]);
    LowerFixed(n[1..]);
    assert n == n[..1] + n[1..];
  }

  /** Each domain's name parses back to it. */
  lemma ParseDomainName(d: Domain)
    ensures ParseDomain(DomainName(d)) == Some(d)
  {
    match d
    case Physical =>
    case Mental => assert "Mental"[0] != "Physical"[0];
    case Technical => assert "Technical"[0] != "Physical"[0] && "Technical"[0] != "Mental"[0];
    case Creative =>
      assert "Creative"[0] != "Physical"[0] && "Creative"[0] != "Mental"[0] && "Creative"[0] != "Technical"[0];
  }

  /** A missing parameter gives 'Physical'. */
  lemma DefaultDomain()
    ensures FormattedDomain(None) == "Physical"
    ensures ParseDomain(FormattedDomain(None)) == Some(Physical)
  {
    var s := "physical";
    LowerFixed(s[1..]);
    assert ToUpper(s[..1]) == "P";
    assert "P" + s[1..] == "Physical";
  }

  /** Every spelling of a domain name, in any case, gives that domain. */
  lemma FormattedDomainSpec(s: string, d: Domain)
    requires ToLower(s) == ToLower(DomainName(d))
    ensures ParseDomain(FormattedDomain(Some(s))) == Some(d)
  {
    CapitalizeIgnoresCase(s);
    CapitalizeIgnoresCase(DomainName(d));
    DomainNameFormatted(d);
    ParseDomainName(d);
  }

  function SkillInDomain(d: Domain): Skill -> bool {
    (s: Skill) => s.domain == d
  }

  function OpenQuestInDomain(d: Domain): Quest -> bool {
    (q: Quest) => q.domain == d && !q.completed
  }

  function SkillLevel(s: Skill): int {
    s.level
  }

  /** What the page shows for one domain. */
  datatype DomainStats = DomainStats(
    domain: Domain,
    skills: seq<Skill>,
    quests: seq<Quest>,
    rank: Option<Rank>,
    totalXp: int,
    highestLevel: int)

  /**
   * The page for a route parameter: None when the formatted name is not a
   * domain, where the render reads a colour of an undefined entry and throws.
   */
  function ViewDomain(st: StoreState, param: Option<string>): Option<DomainStats> {
    match ParseDomain(FormattedDomain(param))
    case None => None
    case Some(d) =>
      var domainSkills := Filter(st.skills, SkillInDomain(d));
      Some(DomainStats(
        d,
        domainSkills,
        Filter(st.quests, OpenQuestInDomain(d)),
        if d in st.domainRanks then Some(st.domainRanks[d]) else None,
        Sum(domainSkills, SkillXp),
        MaxOf(domainSkills, SkillLevel, 0)))
  }

  /**
   * The page lists exactly the domain's skills and its open quests, in
   * order; its XP is the sum `calculateRank` ranks; its highest level is
   * at least 0, at least every listed level, and one of them when any is
   * above 0.
   */
  lemma ViewDomainSpec(st: StoreState, param: Option<string>)
    requires ViewDomain(st, param).Some?
    ensures var v := ViewDomain(st, param).value;
      && IsSubsequence(v.skills, st.skills)
      && (forall s :: multiset(v.skills)[s] == if s.domain == v.domain then multiset(st.skills)[s] else 0)
      && IsSubsequence(v.quests, st.quests)
      && (forall q :: multiset(v.quests)[q] == if q.domain == v.domain && !q.completed then multiset(st.quests)[q] else 0)
      && RankOf(v.totalXp) == StoreModel.CalculateRank(st, v.domain)
      && v.highestLevel >= 0
      && (forall i :: 0 <= i < |v.skills| ==> v.skills[i].level <= v.highestLevel)
      && (v.highestLevel == 0 || exists i :: 0 <= i < |v.skills| && v.skills[i].level == v.highestLevel)
  {
    var v := ViewDomain(st, param).value;
    var d := v.domain;
    forall s {
      FilterCount(st.skills, SkillInDomain(d), s);
    }
    forall q {
      FilterCount(st.quests, OpenQuestInDomain(d), q);
    }
    FilterIsSubsequence(st.skills, SkillInDomain(d));
    FilterIsSubsequence(st.quests, OpenQuestInDomain(d));
    assert SkillInDomain(d) == InDomain(d);
  }

  /** An unknown domain in the route makes the page fail; a missing one shows Physical. */
  lemma ViewDomainUnknown(st: StoreState, param: Option<string>)
    ensures ViewDomain(st, param).None? <==> ParseDomain(FormattedDomain(param)).None?
    ensures ViewDomain(st, None).Some? && ViewDomain(st, None).value.domain == Physical
  {
  }

  /** The skill `handleAddSkill` adds for the prompted name, if the name is non-empty. */
  function PromptedSkill(name: Option<string>, id: string, d: Domain): (r: Option<Skill>)
    ensures r.None? <==> !TruthyString(name)
    ensures r.Some? ==>
      && r.value.id == id && r.value.name == name.value && r.value.name != ""
      && r.value.domain == d && r.value.metrics.None?
      && r.value.level == 1 && r.value.xp == 0 && r.value.xpToNextLevel == 100
      && SkillsWellFormed([r.value])
  {
    if TruthyString(name) then Some(Skill(id, name.value, d, 1, 0, 100, None)) else None
  }

  /**
   * `handleAddSkill`: a cancelled or empty prompt adds nothing; otherwise
   * a level-1 skill with 0 of 100 XP joins the domain.
   */
  method HandleAddSkill(store: ProdigyStore, name: Option<string>, id: string, d: Domain)
    modifies store
    ensures PromptedSkill(name, id, d).None? ==> store.State() == old(store.State())
    ensures PromptedSkill(name, id, d).Some? ==> store.State() == AddSkillTo(old(store.State()), PromptedSkill(name, id, d).value)
    ensures old(store.Valid()) ==> store.Valid()
  {
    var skill := PromptedSkill(name, id, d);
    if skill.Some? {
      store.AddSkill(skill.value);
    }
  }
}

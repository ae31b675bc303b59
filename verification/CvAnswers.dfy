/** What normalising reads from where, and which record wins a section of a merge. */
module CvAnswers {
  import opened Wrappers
  import opened CvRecords

  // ------------------------------------------------------------ aliases

  /** The i-th key is the first of the list that holds something. */
  predicate Leads(d: Object, keys: seq<string>, i: nat)
    requires i < |keys|
  {
    Truthy(Get(d, keys[i])) && forall j | 0 <= j < i :: !Truthy(Get(d, keys[j]))
  }

  ghost predicate NoneLeads(d: Object, keys: seq<string>) { forall i | 0 <= i < |keys| :: !Truthy(Get(d, keys[i])) }

  /** A chain of aliases is read from the first that holds something. */
  lemma {:induction false} ChainReadsFirst(d: Object, keys: seq<string>)
    requires keys != []
    ensures forall i | 0 <= i < |keys| && Leads(d, keys, i) :: Chain(d, keys) == Get(d, keys[i])
    ensures NoneLeads(d, keys) ==> Chain(d, keys) == Get(d, keys[|keys| - 1])
    ensures Truthy(Chain(d, keys)) <==> !NoneLeads(d, keys)
  {
    if |keys| > 1 && !Truthy(Get(d, keys[0])) {
      ChainReadsFirst(d, keys[1..]);
      forall i | 0 <= i < |keys| && Leads(d, keys, i) ensures Chain(d, keys) == Get(d, keys[i]) {
        assert Leads(d, keys[1..], i - 1);
      }
      assert NoneLeads(d, keys) <==> NoneLeads(d, keys[1..]) by {
        forall i | 0 <= i < |keys[1..]| ensures keys[1..][i] == keys[i + 1] {}
      }
    }
  }

  /** `v` is the first alias that holds something, or the empty string. */
  ghost predicate TextFrom(v: Json, d: Object, keys: seq<string>) {
    && (forall i | 0 <= i < |keys| && Leads(d, keys, i) :: v == Get(d, keys[i]))
    && (NoneLeads(d, keys) ==> v == JStr(""))
  }

  /** `vs` are the elements of the first alias that holds something, if that is a list, or nothing. */
  ghost predicate ListFrom(vs: seq<Json>, d: Object, keys: seq<string>) {
    && (forall i | 0 <= i < |keys| && Leads(d, keys, i) ::
          vs == if Get(d, keys[i]).JList? then Get(d, keys[i]).items else [])
    && (NoneLeads(d, keys) ==> vs == [])
  }

  lemma TextReads(d: Object, keys: seq<string>)
    requires keys != []
    ensures TextFrom(Text(d, keys), d, keys)
  {
    ChainReadsFirst(d, keys);
  }

  lemma ListReads(d: Object, keys: seq<string>)
    requires keys != []
    ensures ListFrom(AsList(Chain(d, keys)), d, keys)
  {
    ChainReadsFirst(d, keys);
  }

  // ------------------------------------------------------------ items

  /** An experience has six columns, each read from its own aliases: four texts and two lists. */
  lemma ExperienceReads(d: Object)
    ensures var c := Canonical(Experience, d);
            && TextFrom(c["company"], d, ["company", "employer", "organization"])
            && TextFrom(c["role"], d, ["role", "position", "job_title"])
            && TextFrom(c["start_date"], d, ["start_date", "start"])
            && TextFrom(c["end_date"], d, ["end_date", "end"])
  {
    TextReads(d, ["company", "employer", "organization"]);
    TextReads(d, ["role", "position", "job_title"]);
    TextReads(d, ["start_date", "start"]);
    TextReads(d, ["end_date", "end"]);
  }

  lemma ExperienceReadsLists(d: Object)
    ensures var c := Canonical(Experience, d);
            && c["functions"].JList? && ListFrom(c["functions"].items, d, ["functions", "responsibilities", "duties"])
            && c["tools"].JList? && ListFrom(c["tools"].items, d, ["tools", "technologies"])
  {
    ListReads(d, ["functions", "responsibilities", "duties"]);
    ListReads(d, ["tools", "technologies"]);
  }

  /** And nothing else. */
  lemma CanonicalKeys(d: Object)
    ensures Canonical(Experience, d).Keys == {"company", "role", "start_date", "end_date", "functions", "tools"}
    ensures Canonical(Certification, d).Keys == {"institution", "name", "start", "end"}
    ensures Canonical(Project, d).Keys == {"name", "description", "tools"}
  {
  }

  lemma CertificationReads(d: Object)
    ensures var c := Canonical(Certification, d);
            && TextFrom(c["institution"], d, ["institution", "provider", "organization"])
            && TextFrom(c["name"], d, ["name", "title", "course"])
            && TextFrom(c["start"], d, ["start", "start_date"])
            && TextFrom(c["end"], d, ["end", "end_date"])
  {
    TextReads(d, ["institution", "provider", "organization"]);
    TextReads(d, ["name", "title", "course"]);
    TextReads(d, ["start", "start_date"]);
    TextReads(d, ["end", "end_date"]);
  }

  lemma ProjectReads(d: Object)
    ensures var c := Canonical(Project, d);
            && TextFrom(c["name"], d, ["name", "title"])
            && TextFrom(c["description"], d, ["description", "details"])
            && c["tools"].JList? && ListFrom(c["tools"].items, d, ["tools", "technologies"])
  {
    TextReads(d, ["name", "title"]);
    TextReads(d, ["description", "details"]);
    ListReads(d, ["tools", "technologies"]);
  }

  /** `out` holds the canonical forms of the elements at the positions `at`, in order. */
  ghost predicate FormedAt(kind: Section, vs: seq<Json>, out: seq<Json>, at: seq<nat>) {
    && |at| == |out|
    && (forall j, k | 0 <= j < k < |at| :: at[j] < at[k])
    && (forall k | 0 <= k < |at| ::
          at[k] < |vs| && vs[at[k]].JObj? && out[k] == JObj(Canonical(kind, vs[at[k]].fields)))
  }

  /** The positions of the objects of a list. */
  ghost predicate AllObjects(vs: seq<Json>, at: seq<nat>) { forall i | 0 <= i < |vs| :: i in at <==> vs[i].JObj? }

  lemma FormedOneMore(kind: Section, vs: seq<Json>, out: seq<Json>, at: seq<nat>)
    requires vs != [] && FormedAt(kind, vs[..|vs| - 1], out, at)
    ensures FormedAt(kind, vs, out, at) && |vs| - 1 !in at
    ensures vs[|vs| - 1].JObj? ==>
              FormedAt(kind, vs, out + [JObj(Canonical(kind, vs[|vs| - 1].fields))], at + [|vs| - 1])
  {
  }

  lemma ObjectsOneMore(vs: seq<Json>, before: seq<nat>)
    requires vs != [] && AllObjects(vs[..|vs| - 1], before) && |vs| - 1 !in before
    ensures AllObjects(vs, if vs[|vs| - 1].JObj? then before + [|vs| - 1] else before)
  {
    var n := |vs| - 1;
    forall i | 0 <= i < n ensures i in before <==> vs[i].JObj? { assert vs[..n][i] == vs[i]; }
  }

  /** A section keeps every object of its list, in order and in canonical form, and nothing else. */
  lemma {:induction false} ItemsAreTheObjects(kind: Section, vs: seq<Json>) returns (at: seq<nat>)
    ensures FormedAt(kind, vs, Items(kind, vs), at) && AllObjects(vs, at)
  {
    at := [];
    if vs != [] {
      var n := |vs| - 1;
      var before := ItemsAreTheObjects(kind, vs[..n]);
      FormedOneMore(kind, vs, Items(kind, vs[..n]), before);
      ObjectsOneMore(vs, before);
      at := if vs[n].JObj? then before + [n] else before;
      assert !vs[n].JObj? ==> Items(kind, vs) == Items(kind, vs[..n]);
    }
  }

  // ------------------------------------------------------------ records

  /** The section consists of the objects of the first alias that holds something. */
  ghost predicate SectionFrom(kind: Section, out: seq<Json>, d: Object, keys: seq<string>) {
    exists vs, at :: ListFrom(vs, d, keys) && FormedAt(kind, vs, out, at) && AllObjects(vs, at)
  }

  lemma SectionReads(kind: Section, d: Object, keys: seq<string>)
    requires keys != []
    ensures SectionFrom(kind, Items(kind, AsList(Chain(d, keys))), d, keys)
  {
    ListReads(d, keys);
    var at := ItemsAreTheObjects(kind, AsList(Chain(d, keys)));
  }

  /** The sections of a record are read from their own aliases. */
  lemma SectionsRead(raw: Object)
    ensures var r := Parse(raw);
            && SectionFrom(Experience, r.experience, raw, ["experience", "work_experience", "employment"])
            && SectionFrom(Project, r.projects, raw, ["projects", "personal_projects"])
            && SectionFrom(Certification, r.certifications, raw, ["certifications", "certificates", "courses"])
  {
    SectionReads(Experience, raw, ["experience", "work_experience", "employment"]);
    SectionReads(Project, raw, ["projects", "personal_projects"]);
    SectionReads(Certification, raw, ["certifications", "certificates", "courses"]);
  }

  /** And so are its lists. */
  lemma ListsRead(raw: Object)
    ensures var r := Parse(raw);
            && ListFrom(r.skills, raw, ["skills", "technical_skills"])
            && ListFrom(r.tools, raw, ["tools", "software"])
            && ListFrom(r.softSkills, raw, ["soft_skills", "softSkills"])
  {
    ListReads(raw, ["skills", "technical_skills"]);
    ListReads(raw, ["tools", "software"]);
    ListReads(raw, ["soft_skills", "softSkills"]);
  }

  /** The normalised dictionary holds the record under its six keys, and nothing else. */
  lemma NormalisedEntries(raw: Object)
    ensures var (n, r) := (Normalise(raw), Parse(raw));
            && n.Keys == {"experience", "projects", "skills", "tools", "soft_skills", "certifications"}
            && n["experience"] == JList(r.experience) && n["projects"] == JList(r.projects)
            && n["certifications"] == JList(r.certifications) && n["skills"] == JList(r.skills)
            && n["tools"] == JList(r.tools) && n["soft_skills"] == JList(r.softSkills)
  {
    SixKeys(Parse(raw));
  }

  // ------------------------------------------------------------ merging

  /** The focused pass wins every section in which it found something; the primary record fills the rest. */
  lemma FocusedSectionsWin(p: Object, f: Object)
    requires Merge(p, f).Ok?
    ensures var (a, b, m) := (Parse(p), Parse(f), Parse(Merge(p, f).value));
            && (b.experience != [] ==> m.experience == b.experience)
            && (b.experience == [] ==> m.experience == a.experience)
            && (b.certifications != [] ==> m.certifications == b.certifications)
            && (b.certifications == [] ==> m.certifications == a.certifications)
            && (b.projects != [] ==> m.projects == b.projects)
            && (b.projects == [] ==> m.projects == a.projects)
  {
    MergedIsSettled(p, f);
  }

  /** The number a value stands for as a dictionary key, if any. */
  function Number(v: Json): Option<real> {
    match v
    case JBool(b) => Some(if b then 1.0 else 0.0)
    case JInt(n) => Some(n as real)
    case JFloat(x) => Some(x)
    case _ => None
  }

  /** Two values are one key exactly when they are equal numbers, booleans among them, or the same value. */
  lemma OneKeyIff(a: Json, b: Json)
    ensures KeyOf(a) == KeyOf(b) <==> if Number(a).Some? && Number(b).Some? then Number(a) == Number(b) else a == b
  {
  }
}

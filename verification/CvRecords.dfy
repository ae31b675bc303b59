/** Normalising and merging parsed CV records: one canonical shape, and a merge that is
    associative and absorbs repetition. */
module CvRecords {
  import opened Wrappers

  datatype Json =
    | JNull
    | JBool(b: bool)
    | JInt(n: int)
    | JFloat(x: real)
    | JStr(s: string)
    | JList(items: seq<Json>)
    | JObj(fields: map<string, Json>)

  type Object = map<string, Json>

  predicate Truthy(v: Json) {
    match v
    case JNull => false
    case JBool(b) => b
    case JInt(n) => n != 0
    case JFloat(x) => x != 0.0
    case JStr(s) => s != ""
    case JList(items) => items != []
    case JObj(fields) => fields != map[]
  }

  predicate Hashable(v: Json) { !v.JList? && !v.JObj? }

  /** Numbers and booleans of equal value are one dict key; no other values of two kinds are. */
  function KeyOf(v: Json): Json {
    match v
    case JBool(b) => JFloat(if b then 1.0 else 0.0)
    case JInt(n) => JFloat(n as real)
    case _ => v
  }

  function Get(d: Object, key: string): Json { if key in d then d[key] else JNull }

  /** The value of the first key whose value is truthy, or of the last key when none is. */
  function Chain(d: Object, keys: seq<string>): Json
    requires keys != []
  {
    if |keys| == 1 || Truthy(Get(d, keys[0])) then Get(d, keys[0]) else Chain(d, keys[1..])
  }

  function Text(d: Object, keys: seq<string>): Json
    requires keys != []
  {
    if Truthy(Chain(d, keys)) then Chain(d, keys) else JStr("")
  }

  function AsList(v: Json): seq<Json> { if v.JList? then v.items else [] }

  // ------------------------------------------------------------ the canonical shape

  datatype Section = Experience | Certification | Project

  function Canonical(kind: Section, d: Object): Object {
    match kind
    case Experience => map[
      "company" := Text(d, ["company", "employer", "organization"]),
      "role" := Text(d, ["role", "position", "job_title"]),
      "start_date" := Text(d, ["start_date", "start"]),
      "end_date" := Text(d, ["end_date", "end"]),
      "functions" := JList(AsList(Chain(d, ["functions", "responsibilities", "duties"]))),
      "tools" := JList(AsList(Chain(d, ["tools", "technologies"])))]
    case Certification => map[
      "institution" := Text(d, ["institution", "provider", "organization"]),
      "name" := Text(d, ["name", "title", "course"]),
      "start" := Text(d, ["start", "start_date"]),
      "end" := Text(d, ["end", "end_date"])]
    case Project => map[
      "name" := Text(d, ["name", "title"]),
      "description" := Text(d, ["description", "details"]),
      "tools" := JList(AsList(Chain(d, ["tools", "technologies"])))]
  }

  /** Objects in canonical form; anything else in the list is dropped. */
  function Items(kind: Section, vs: seq<Json>): seq<Json> {
    if vs == [] then [] else
      var init, last := vs[..|vs| - 1], vs[|vs| - 1];
      Items(kind, init) + if last.JObj? then [JObj(Canonical(kind, last.fields))] else []
  }

  datatype Record = Record(experience: seq<Json>, projects: seq<Json>, skills: seq<Json>, tools: seq<Json>,
                           softSkills: seq<Json>, certifications: seq<Json>)

  function Parse(raw: Object): Record {
    Record(
      Items(Experience, AsList(Chain(raw, ["experience", "work_experience", "employment"]))),
      Items(Project, AsList(Chain(raw, ["projects", "personal_projects"]))),
      AsList(Chain(raw, ["skills", "technical_skills"])),
      AsList(Chain(raw, ["tools", "software"])),
      AsList(Chain(raw, ["soft_skills", "softSkills"])),
      Items(Certification, AsList(Chain(raw, ["certifications", "certificates", "courses"]))))
  }

  function ToObject(r: Record): Object {
    map["experience" := JList(r.experience), "projects" := JList(r.projects), "skills" := JList(r.skills),
        "tools" := JList(r.tools), "soft_skills" := JList(r.softSkills), "certifications" := JList(r.certifications)]
  }

  function Normalise(raw: Object): Object { ToObject(Parse(raw)) }

  // ------------------------------------------------------------ normalising twice

  /** A key whose aliases are all absent is read alone. */
  lemma {:induction false} ChainAlone(d: Object, keys: seq<string>)
    requires keys != [] && forall i | 1 <= i < |keys| :: keys[i] !in d
    ensures Chain(d, keys) == Get(d, keys[0]) || (!Truthy(Get(d, keys[0])) && Chain(d, keys) == JNull)
  {
    if |keys| > 1 {
      ChainAlone(d, keys[1..]);
    }
  }

  /** The canonical key holds what the chain gave, and its aliases are gone. */
  predicate Reread(c: Object, keys: seq<string>, v: Json) {
    keys != [] && keys[0] in c && c[keys[0]] == v && forall i | 1 <= i < |keys| :: keys[i] !in c
  }

  lemma TextTwice(c: Object, d: Object, keys: seq<string>)
    requires keys != [] && Reread(c, keys, Text(d, keys))
    ensures Text(c, keys) == Text(d, keys)
  {
    ChainAlone(c, keys);
  }

  lemma ListTwice(c: Object, keys: seq<string>, vs: seq<Json>)
    requires Reread(c, keys, JList(vs))
    ensures AsList(Chain(c, keys)) == vs
  {
    ChainAlone(c, keys);
  }

  lemma ExperienceTexts(d: Object)
    ensures var c := Canonical(Experience, d);
            && Text(c, ["company", "employer", "organization"]) == Text(d, ["company", "employer", "organization"])
            && Text(c, ["role", "position", "job_title"]) == Text(d, ["role", "position", "job_title"])
            && Text(c, ["start_date", "start"]) == Text(d, ["start_date", "start"])
            && Text(c, ["end_date", "end"]) == Text(d, ["end_date", "end"])
  {
    var c := Canonical(Experience, d);
    TextTwice(c, d, ["company", "employer", "organization"]);
    TextTwice(c, d, ["role", "position", "job_title"]);
    TextTwice(c, d, ["start_date", "start"]);
    TextTwice(c, d, ["end_date", "end"]);
  }

  lemma ExperienceTwice(d: Object)
    ensures Canonical(Experience, Canonical(Experience, d)) == Canonical(Experience, d)
  {
    var c := Canonical(Experience, d);
    ExperienceTexts(d);
    ListTwice(c, ["functions", "responsibilities", "duties"],
              AsList(Chain(d, ["functions", "responsibilities", "duties"])));
    ListTwice(c, ["tools", "technologies"], AsList(Chain(d, ["tools", "technologies"])));
  }

  lemma CertificationTwice(d: Object)
    ensures Canonical(Certification, Canonical(Certification, d)) == Canonical(Certification, d)
  {
    var c := Canonical(Certification, d);
    TextTwice(c, d, ["institution", "provider", "organization"]);
    TextTwice(c, d, ["name", "title", "course"]);
    TextTwice(c, d, ["start", "start_date"]);
    TextTwice(c, d, ["end", "end_date"]);
  }

  lemma ProjectTwice(d: Object)
    ensures Canonical(Project, Canonical(Project, d)) == Canonical(Project, d)
  {
    var c := Canonical(Project, d);
    TextTwice(c, d, ["name", "title"]);
    TextTwice(c, d, ["description", "details"]);
    ListTwice(c, ["tools", "technologies"], AsList(Chain(d, ["tools", "technologies"])));
  }

  lemma CanonicalTwice(kind: Section, d: Object)
    ensures Canonical(kind, Canonical(kind, d)) == Canonical(kind, d)
  {
    match kind
    case Experience => ExperienceTwice(d);
    case Certification => CertificationTwice(d);
    case Project => ProjectTwice(d);
  }

  lemma {:induction false} ItemsTwice(kind: Section, vs: seq<Json>)
    ensures Items(kind, Items(kind, vs)) == Items(kind, vs)
  {
    if vs != [] {
      var init, last := vs[..|vs| - 1], vs[|vs| - 1];
      ItemsTwice(kind, init);
      if last.JObj? {
        CanonicalTwice(kind, last.fields);
        var once := Items(kind, vs);
        assert once[..|once| - 1] == Items(kind, init);
      } else {
        assert Items(kind, vs) == Items(kind, init);
      }
    }
  }

  ghost predicate Settled(r: Record) {
    && Items(Experience, r.experience) == r.experience && Items(Project, r.projects) == r.projects
    && Items(Certification, r.certifications) == r.certifications
  }

  lemma ParsedIsSettled(raw: Object)
    ensures Settled(Parse(raw))
  {
    ItemsTwice(Experience, AsList(Chain(raw, ["experience", "work_experience", "employment"])));
    ItemsTwice(Project, AsList(Chain(raw, ["projects", "personal_projects"])));
    ItemsTwice(Certification, AsList(Chain(raw, ["certifications", "certificates", "courses"])));
  }

  lemma SectionsReread(r: Record)
    ensures var d := ToObject(r);
            && AsList(Chain(d, ["experience", "work_experience", "employment"])) == r.experience
            && AsList(Chain(d, ["projects", "personal_projects"])) == r.projects
            && AsList(Chain(d, ["certifications", "certificates", "courses"])) == r.certifications
  {
    ListTwice(ToObject(r), ["experience", "work_experience", "employment"], r.experience);
    ListTwice(ToObject(r), ["projects", "personal_projects"], r.projects);
    ListTwice(ToObject(r), ["certifications", "certificates", "courses"], r.certifications);
  }

  lemma ListsReread(r: Record)
    ensures var d := ToObject(r);
            && AsList(Chain(d, ["skills", "technical_skills"])) == r.skills
            && AsList(Chain(d, ["tools", "software"])) == r.tools
            && AsList(Chain(d, ["soft_skills", "softSkills"])) == r.softSkills
  {
    ListTwice(ToObject(r), ["skills", "technical_skills"], r.skills);
    ListTwice(ToObject(r), ["tools", "software"], r.tools);
    ListTwice(ToObject(r), ["soft_skills", "softSkills"], r.softSkills);
  }

  /** A settled record survives the trip through its own dictionary. */
  lemma ParseToObject(r: Record)
    requires Settled(r)
    ensures Parse(ToObject(r)) == r
  {
    SectionsReread(r);
    ListsReread(r);
  }

  lemma NormaliseIdempotent(raw: Object)
    ensures Normalise(Normalise(raw)) == Normalise(raw)
  {
    ParsedIsSettled(raw);
    ParseToObject(Parse(raw));
  }

  // ------------------------------------------------------------ first occurrences

  predicate Seen(vs: seq<Json>, v: Json) { exists i | 0 <= i < |vs| :: KeyOf(vs[i]) == KeyOf(v) }

  /** Truthy values, each kept where its key occurs first. */
  function Distinct(vs: seq<Json>): seq<Json> {
    if vs == [] then [] else
      var kept, last := Distinct(vs[..|vs| - 1]), vs[|vs| - 1];
      if Truthy(last) && !Seen(kept, last) then kept + [last] else kept
  }

  predicate IsFirst(vs: seq<Json>, i: nat)
    requires i < |vs|
  {
    Truthy(vs[i]) && forall j | 0 <= j < i :: KeyOf(vs[j]) != KeyOf(vs[i])
  }

  /** `at` lists positions in order, and `out` the values there. */
  ghost predicate Picks(vs: seq<Json>, out: seq<Json>, at: seq<nat>) {
    && |at| == |out|
    && (forall j, k | 0 <= j < k < |at| :: at[j] < at[k])
    && (forall k | 0 <= k < |at| :: at[k] < |vs| && out[k] == vs[at[k]])
  }

  /** `at` holds exactly the positions of first occurrences. */
  ghost predicate AllFirsts(vs: seq<Json>, at: seq<nat>) {
    forall i | 0 <= i < |vs| :: i in at <==> IsFirst(vs, i)
  }

  ghost predicate FirstOccurrences(vs: seq<Json>, out: seq<Json>, at: seq<nat>) {
    Picks(vs, out, at) && AllFirsts(vs, at)
  }

  lemma {:induction false} TruthySeen(vs: seq<Json>, v: Json)
    requires Truthy(v)
    ensures Seen(Distinct(vs), v) <==> Seen(vs, v)
  {
    if vs != [] {
      var init, last := vs[..|vs| - 1], vs[|vs| - 1];
      TruthySeen(init, v);
      SeenAppend(init, last, v);
      SeenAppend(Distinct(init), last, v);
      assert vs == init + [last];
      assert KeyOf(last) == KeyOf(v) ==> Truthy(last);
      assert KeyOf(last) == KeyOf(v) && Seen(Distinct(init), last) ==> Seen(Distinct(init), v);
    }
  }

  lemma SeenAppend(vs: seq<Json>, x: Json, v: Json)
    ensures Seen(vs + [x], v) <==> Seen(vs, v) || KeyOf(x) == KeyOf(v)
  {
    assert (vs + [x])[|vs|] == x;
    forall i | 0 <= i < |vs| ensures (vs + [x])[i] == vs[i] { }
  }

  lemma FirstInPrefix(vs: seq<Json>, i: nat)
    requires i + 1 < |vs|
    ensures IsFirst(vs, i) <==> IsFirst(vs[..|vs| - 1], i)
  {
  }

  lemma FirstAtEnd(vs: seq<Json>)
    requires vs != []
    ensures IsFirst(vs, |vs| - 1) <==> Truthy(vs[|vs| - 1]) && !Seen(Distinct(vs[..|vs| - 1]), vs[|vs| - 1])
  {
    var init, last := vs[..|vs| - 1], vs[|vs| - 1];
    if Truthy(last) {
      TruthySeen(init, last);
      assert (forall j | 0 <= j < |init| :: KeyOf(vs[j]) != KeyOf(last)) <==> !Seen(init, last) by {
        forall j | 0 <= j < |init| ensures vs[j] == init[j] { }
      }
    }
  }

  lemma PicksOneMore(vs: seq<Json>, out: seq<Json>, before: seq<nat>)
    requires vs != [] && Picks(vs[..|vs| - 1], out, before)
    ensures Picks(vs, out, before) && Picks(vs, out + [vs[|vs| - 1]], before + [|vs| - 1])
  {
  }

  lemma FirstsOneMore(vs: seq<Json>, out: seq<Json>, before: seq<nat>)
    requires vs != [] && Picks(vs[..|vs| - 1], out, before) && AllFirsts(vs[..|vs| - 1], before)
    ensures AllFirsts(vs, if IsFirst(vs, |vs| - 1) then before + [|vs| - 1] else before)
  {
    var n := |vs| - 1;
    assert n !in before;
    forall i | 0 <= i < n ensures i in before <==> IsFirst(vs, i) { FirstInPrefix(vs, i); }
    assert n in before + [n];
  }

  /** The kept values are exactly the first truthy occurrences of their keys, in order. */
  lemma {:induction false} DistinctIsFirstOccurrences(vs: seq<Json>) returns (at: seq<nat>)
    ensures FirstOccurrences(vs, Distinct(vs), at)
  {
    if vs == [] {
      at := [];
    } else {
      var n := |vs| - 1;
      var before := DistinctIsFirstOccurrences(vs[..n]);
      FirstAtEnd(vs);
      PicksOneMore(vs, Distinct(vs[..n]), before);
      FirstsOneMore(vs, Distinct(vs[..n]), before);
      at := if IsFirst(vs, n) then before + [n] else before;
    }
  }

  /** No key twice. */
  lemma {:induction false} DistinctHasNoRepeats(vs: seq<Json>)
    ensures forall i, j | 0 <= i < j < |Distinct(vs)| :: KeyOf(Distinct(vs)[i]) != KeyOf(Distinct(vs)[j])
    ensures forall i | 0 <= i < |Distinct(vs)| :: Truthy(Distinct(vs)[i]) && Distinct(vs)[i] in vs
  {
    if vs != [] {
      DistinctHasNoRepeats(vs[..|vs| - 1]);
    }
  }

  lemma DistinctOneMore(vs: seq<Json>, v: Json)
    ensures Distinct(vs + [v]) ==
            if Truthy(v) && !Seen(Distinct(vs), v) then Distinct(vs) + [v] else Distinct(vs)
  {
    assert (vs + [v])[..|vs|] == vs;
  }

  lemma Regroup<T>(x: seq<T>, y: seq<T>, z: seq<T>)
    ensures (x + y) + z == x + (y + z)
  {
  }

  lemma {:induction false} DistinctTwice(vs: seq<Json>, more: seq<Json>)
    ensures Distinct(Distinct(vs) + more) == Distinct(vs + more)
    decreases |vs| + |more|
  {
    if more != [] {
      var init, last := more[..|more| - 1], more[|more| - 1];
      assert more == init + [last];
      DistinctTwice(vs, init);
      Regroup(vs, init, [last]);
      Regroup(Distinct(vs), init, [last]);
      DistinctOneMore(vs + init, last);
      DistinctOneMore(Distinct(vs) + init, last);
    } else if vs != [] {
      var init, last := vs[..|vs| - 1], vs[|vs| - 1];
      DistinctTwice(init, []);
      var kept := Distinct(init);
      assert init + [] == init && kept + [] == kept && vs + [] == vs && Distinct(vs) + [] == Distinct(vs);
      DistinctOneMore(kept, last);
    }
  }

  /** A value already kept from the right part is no news after the left part either. */
  lemma SeenStays(vs: seq<Json>, more: seq<Json>, v: Json)
    requires Truthy(v) && Seen(Distinct(more), v)
    ensures Seen(Distinct(vs + more), v)
  {
    TruthySeen(more, v);
    SeenLater(vs, more, v);
    TruthySeen(vs + more, v);
  }

  lemma {:induction false} DistinctRight(vs: seq<Json>, more: seq<Json>)
    ensures Distinct(vs + Distinct(more)) == Distinct(vs + more)
  {
    if more != [] {
      var init, last := more[..|more| - 1], more[|more| - 1];
      assert more == init + [last];
      DistinctRight(vs, init);
      Regroup(vs, init, [last]);
      DistinctOneMore(vs + init, last);
      DistinctOneMore(init, last);
      if Truthy(last) && Seen(Distinct(init), last) {
        SeenStays(vs, init, last);
      } else if Truthy(last) {
        Regroup(vs, Distinct(init), [last]);
        DistinctOneMore(vs + Distinct(init), last);
      }
    }
  }

  lemma SeenLater(vs: seq<Json>, more: seq<Json>, v: Json)
    requires Seen(more, v)
    ensures Seen(vs + more, v)
  {
    var i :| 0 <= i < |more| && KeyOf(more[i]) == KeyOf(v);
    assert (vs + more)[|vs| + i] == more[i];
  }

  lemma {:induction false} NothingNew(vs: seq<Json>, more: seq<Json>)
    requires forall v | v in more :: Seen(vs, v)
    ensures Distinct(vs + more) == Distinct(vs)
  {
    if more == [] {
      assert vs + more == vs;
    } else {
      var init, last := more[..|more| - 1], more[|more| - 1];
      NothingNew(vs, init);
      assert (vs + more)[..|vs + more| - 1] == vs + init;
      if Truthy(last) {
        assert last in more;
        TruthySeen(vs, last);
      }
    }
  }

  lemma RepeatAdds(vs: seq<Json>, more: seq<Json>)
    ensures Distinct(Distinct(vs + more) + more) == Distinct(vs + more)
  {
    DistinctTwice(vs + more, more);
    forall v | v in more ensures Seen(vs + more, v) {
      var i :| 0 <= i < |more| && more[i] == v;
      assert (vs + more)[|vs| + i] == v;
    }
    NothingNew(vs + more, more);
  }

  // ------------------------------------------------------------ merging

  datatype Error = TypeError

  type Merged = Result<Object, Error>

  /** A truthy list or object cannot be a dictionary key. */
  predicate AllKeys(vs: seq<Json>) { forall v | v in vs :: Truthy(v) ==> Hashable(v) }

  predicate KeysOk(r: Record) { AllKeys(r.skills) && AllKeys(r.tools) && AllKeys(r.softSkills) }

  function Prefer(first: seq<Json>, second: seq<Json>): seq<Json> { if second != [] then second else first }

  function Combine(first: Record, second: Record): Record {
    Record(Prefer(first.experience, second.experience), Prefer(first.projects, second.projects),
           Distinct(first.skills + second.skills), Distinct(first.tools + second.tools),
           Distinct(first.softSkills + second.softSkills), Prefer(first.certifications, second.certifications))
  }

  function MergeRecords(first: Record, second: Record): Result<Record, Error> {
    if KeysOk(first) && KeysOk(second) then Ok(Combine(first, second)) else Err(TypeError)
  }

  function Merge(primary: Object, focused: Object): Merged {
    match MergeRecords(Parse(primary), Parse(focused))
    case Ok(r) => Ok(ToObject(r))
    case Err(e) => Err(e)
  }

  lemma AllKeysSplit(vs: seq<Json>, more: seq<Json>)
    ensures AllKeys(vs + more) <==> AllKeys(vs) && AllKeys(more)
    ensures AllKeys(vs + more) ==> AllKeys(Distinct(vs + more))
  {
    DistinctHasNoRepeats(vs + more);
    if AllKeys(vs + more) {
      assert forall v | v in vs :: v in vs + more;
      assert forall v | v in more :: v in vs + more;
    }
  }

  lemma CombineKeys(x: Record, y: Record)
    requires KeysOk(x) && KeysOk(y)
    ensures KeysOk(Combine(x, y))
  {
    AllKeysSplit(x.skills, y.skills);
    AllKeysSplit(x.tools, y.tools);
    AllKeysSplit(x.softSkills, y.softSkills);
  }

  lemma CombineSettled(x: Record, y: Record)
    requires Settled(x) && Settled(y)
    ensures Settled(Combine(x, y))
  {
  }

  lemma MergeIsCombine(p: Object, f: Object)
    requires Merge(p, f).Ok?
    ensures Merge(p, f).value == ToObject(Combine(Parse(p), Parse(f)))
  {
  }

  /** A successful merge is a normalised dictionary. */
  lemma MergedIsSettled(p: Object, f: Object)
    requires Merge(p, f).Ok?
    ensures Parse(Merge(p, f).value) == Combine(Parse(p), Parse(f))
    ensures Normalise(Merge(p, f).value) == Merge(p, f).value
  {
    ParsedIsSettled(p);
    ParsedIsSettled(f);
    CombineSettled(Parse(p), Parse(f));
    MergeIsCombine(p, f);
    ParseToObject(Combine(Parse(p), Parse(f)));
  }

  function Then<T>(m: Result<T, Error>, f: T -> Result<T, Error>): Result<T, Error> {
    match m case Ok(d) => f(d) case Err(_) => m
  }

  lemma DistinctAssociative(x: seq<Json>, y: seq<Json>, z: seq<Json>)
    ensures Distinct(Distinct(x + y) + z) == Distinct(x + Distinct(y + z))
  {
    Regroup(x, y, z);
    DistinctTwice(x + y, z);
    DistinctRight(x, y + z);
  }

  lemma CombineAssociative(x: Record, y: Record, z: Record)
    ensures Combine(Combine(x, y), z) == Combine(x, Combine(y, z))
  {
    DistinctAssociative(x.skills, y.skills, z.skills);
    DistinctAssociative(x.tools, y.tools, z.tools);
    DistinctAssociative(x.softSkills, y.softSkills, z.softSkills);
  }

  lemma CombineAbsorbs(x: Record, y: Record)
    ensures Combine(Combine(x, y), y) == Combine(x, y)
  {
    RepeatAdds(x.skills, y.skills);
    RepeatAdds(x.tools, y.tools);
    RepeatAdds(x.softSkills, y.softSkills);
  }

  /** What the left and the right grouping compute, in terms of the parsed records. */
  lemma MergeLeft(a: Object, b: Object, c: Object)
    ensures Then(Merge(a, b), (m: Object) => Merge(m, c)) ==
            if KeysOk(Parse(a)) && KeysOk(Parse(b)) && KeysOk(Parse(c))
            then Ok(ToObject(Combine(Combine(Parse(a), Parse(b)), Parse(c)))) else Err(TypeError)
  {
    if Merge(a, b).Ok? {
      MergedIsSettled(a, b);
      CombineKeys(Parse(a), Parse(b));
    }
  }

  lemma MergeRight(a: Object, b: Object, c: Object)
    ensures Then(Merge(b, c), (m: Object) => Merge(a, m)) ==
            if KeysOk(Parse(a)) && KeysOk(Parse(b)) && KeysOk(Parse(c))
            then Ok(ToObject(Combine(Parse(a), Combine(Parse(b), Parse(c))))) else Err(TypeError)
  {
    if Merge(b, c).Ok? {
      MergedIsSettled(b, c);
      CombineKeys(Parse(b), Parse(c));
    }
  }

  /** Associative on every three objects: the two groupings fail together, and give the same
      dictionary otherwise. */
  lemma MergeAssociative(a: Object, b: Object, c: Object)
    ensures Then(Merge(a, b), (m: Object) => Merge(m, c)) == Then(Merge(b, c), (m: Object) => Merge(a, m))
  {
    MergeLeft(a, b, c);
    MergeRight(a, b, c);
    CombineAssociative(Parse(a), Parse(b), Parse(c));
  }

  /** Merging the same focused record again changes nothing. */
  lemma MergeAbsorbs(p: Object, f: Object)
    ensures Then(Merge(p, f), (m: Object) => Merge(m, f)) == Merge(p, f)
  {
    MergeLeft(p, f, f);
    CombineAbsorbs(Parse(p), Parse(f));
  }

  ghost predicate OrderedUnion(first: seq<Json>, second: seq<Json>, out: seq<Json>) {
    && (exists at :: FirstOccurrences(first + second, out, at))
    && (forall i, j | 0 <= i < j < |out| :: KeyOf(out[i]) != KeyOf(out[j]))
  }

  lemma DistinctIsOrderedUnion(first: seq<Json>, second: seq<Json>)
    ensures OrderedUnion(first, second, Distinct(first + second))
  {
    var at := DistinctIsFirstOccurrences(first + second);
    DistinctHasNoRepeats(first + second);
  }

  /** The merge succeeds exactly when no list to be united holds a truthy list or object; then each
      of the three lists is the ordered union of both inputs by first occurrence. */
  lemma MergedLists(p: Object, f: Object)
    ensures Merge(p, f).Ok? <==> KeysOk(Parse(p)) && KeysOk(Parse(f))
    ensures Merge(p, f).Ok? ==>
              && OrderedUnion(Parse(p).skills, Parse(f).skills, Parse(Merge(p, f).value).skills)
              && OrderedUnion(Parse(p).tools, Parse(f).tools, Parse(Merge(p, f).value).tools)
              && OrderedUnion(Parse(p).softSkills, Parse(f).softSkills, Parse(Merge(p, f).value).softSkills)
  {
    if Merge(p, f).Ok? {
      MergedIsSettled(p, f);
      var a, b := Parse(p), Parse(f);
      DistinctIsOrderedUnion(a.skills, b.skills);
      DistinctIsOrderedUnion(a.tools, b.tools);
      DistinctIsOrderedUnion(a.softSkills, b.softSkills);
    }
  }

  // ------------------------------------------------------------ the procedures

  method NormaliseItems(kind: Section, v: Json) returns (out: seq<Json>)
    ensures out == Items(kind, AsList(v))
  {
    out := [];
    var items := AsList(v);
    for i := 0 to |items|
      invariant out == Items(kind, items[..i])
    {
      assert items[..i + 1][..i] == items[..i];
      if !items[i].JObj? { continue; }
      out := out + [JObj(Canonical(kind, items[i].fields))];
    }
    assert items[..|items|] == items;
  }

  method NormaliseParsedData(raw: Object) returns (out: Object)
    ensures out == Normalise(raw)
  {
    var experience := NormaliseItems(Experience, Chain(raw, ["experience", "work_experience", "employment"]));
    var certifications := NormaliseItems(Certification, Chain(raw, ["certifications", "certificates", "courses"]));
    var projects := NormaliseItems(Project, Chain(raw, ["projects", "personal_projects"]));
    out := map[
      "experience" := JList(experience),
      "projects" := JList(projects),
      "skills" := JList(AsList(Chain(raw, ["skills", "technical_skills"]))),
      "tools" := JList(AsList(Chain(raw, ["tools", "software"]))),
      "soft_skills" := JList(AsList(Chain(raw, ["soft_skills", "softSkills"]))),
      "certifications" := JList(certifications)];
  }

  /** The truthy values as dictionary keys: each kept once, in the order they were first inserted. */
  method FromKeys(values: seq<Json>) returns (out: Result<seq<Json>, Error>)
    ensures out == if AllKeys(values) then Ok(Distinct(values)) else Err(TypeError)
  {
    var order, seen := [], {};
    for i := 0 to |values|
      invariant order == Distinct(values[..i]) && AllKeys(values[..i])
      invariant forall v :: KeyOf(v) in seen <==> Seen(order, v)
    {
      assert values[..i + 1][..i] == values[..i];
      var v := values[i];
      if !Truthy(v) { continue; }
      if !Hashable(v) { return Err(TypeError); }
      if KeyOf(v) !in seen {
        forall w { SeenAppend(order, v, w); }
        order, seen := order + [v], seen + {KeyOf(v)};
      }
    }
    assert values[..|values|] == values;
    return Ok(order);
  }

  predicate ListsAt(d: Object, keys: seq<string>) { forall k | k in keys :: k in d && d[k].JList? }

  predicate KeysAt(first: Object, second: Object, keys: seq<string>)
    requires ListsAt(first, keys) && ListsAt(second, keys)
  {
    forall k | k in keys :: AllKeys(first[k].items + second[k].items)
  }

  /** The second record's section replaces the first's wherever it is not empty. */
  method PreferSections(first: Object, second: Object, keys: seq<string>) returns (merged: Object)
    requires ListsAt(first, keys) && ListsAt(second, keys)
    ensures merged.Keys == first.Keys
    ensures forall k | k in merged ::
              merged[k] == if k in keys then JList(Prefer(first[k].items, second[k].items)) else first[k]
  {
    merged := first;
    for i := 0 to |keys|
      invariant merged.Keys == first.Keys
      invariant forall k | k in merged ::
        merged[k] == if k in keys[..i] then JList(Prefer(first[k].items, second[k].items)) else first[k]
    {
      assert keys[..i + 1] == keys[..i] + [keys[i]];
      if Truthy(second[keys[i]]) {
        merged := merged[keys[i] := second[keys[i]]];
      }
    }
    assert keys[..|keys|] == keys;
  }

  method UniteLists(first: Object, second: Object, base: Object, keys: seq<string>) returns (out: Merged)
    requires ListsAt(first, keys) && ListsAt(second, keys) && base.Keys == first.Keys
    ensures out.Ok? <==> KeysAt(first, second, keys)
    ensures out.Ok? ==>
              && out.value.Keys == base.Keys
              && forall k | k in base ::
                   out.value[k] == if k in keys then JList(Distinct(first[k].items + second[k].items)) else base[k]
  {
    var merged := base;
    for i := 0 to |keys|
      invariant merged.Keys == base.Keys
      invariant forall k | k in keys[..i] :: AllKeys(first[k].items + second[k].items)
      invariant forall k | k in base ::
        merged[k] == if k in keys[..i] then JList(Distinct(first[k].items + second[k].items)) else base[k]
    {
      assert keys[..i + 1] == keys[..i] + [keys[i]];
      var values := FromKeys(first[keys[i]].items + second[keys[i]].items);
      if values.Err? {
        assert keys[i] in keys;
        return Err(TypeError);
      }
      merged := merged[keys[i] := JList(values.value)];
    }
    assert keys[..|keys|] == keys;
    return Ok(merged);
  }

  function Preferred(a: Record, b: Record): Record {
    a.(experience := Prefer(a.experience, b.experience), projects := Prefer(a.projects, b.projects),
       certifications := Prefer(a.certifications, b.certifications))
  }

  function Sections(): seq<string> { ["experience", "certifications", "projects"] }

  function Lists(): seq<string> { ["skills", "tools", "soft_skills"] }

  /** The six keys are the three sections and the three lists. */
  lemma SixKeys(r: Record)
    ensures ToObject(r).Keys == {"experience", "projects", "skills", "tools", "soft_skills", "certifications"}
    ensures forall k | k in ToObject(r) :: k in Sections() <==> k !in Lists()
    ensures "skills" in Lists() && "tools" in Lists() && "soft_skills" in Lists()
    ensures "experience" in Sections() && "certifications" in Sections() && "projects" in Sections()
  {
    assert Lists()[0] == "skills" && Lists()[1] == "tools" && Lists()[2] == "soft_skills";
    assert Sections()[0] == "experience" && Sections()[1] == "certifications" && Sections()[2] == "projects";
  }

  lemma SameObject(d: Object, r: Record)
    requires d.Keys == ToObject(r).Keys
    requires d["experience"] == JList(r.experience) && d["projects"] == JList(r.projects)
             && d["skills"] == JList(r.skills)
    requires d["tools"] == JList(r.tools) && d["soft_skills"] == JList(r.softSkills)
    requires d["certifications"] == JList(r.certifications)
    ensures d == ToObject(r)
  {
  }

  /** The two loops over six fixed keys build the combined record. */
  lemma SectionsAssembled(a: Record, b: Record, base: Object)
    requires var first, second := ToObject(a), ToObject(b);
             && base.Keys == first.Keys
             && (forall k | k in base ::
                   base[k] == if k in Sections() then JList(Prefer(first[k].items, second[k].items)) else first[k])
    ensures base == ToObject(Preferred(a, b))
  {
    SixKeys(a);
    SameObject(base, Preferred(a, b));
  }

  lemma ListsAssembled(a: Record, b: Record, merged: Object)
    requires var first, second, base := ToObject(a), ToObject(b), ToObject(Preferred(a, b));
             && merged.Keys == first.Keys
             && (forall k | k in base ::
                   merged[k] == if k in Lists() then JList(Distinct(first[k].items + second[k].items)) else base[k])
    ensures merged == ToObject(Combine(a, b))
  {
    SixKeys(a);
    SameObject(merged, Combine(a, b));
  }

  lemma ListsAreKeys(a: Record, b: Record)
    ensures KeysAt(ToObject(a), ToObject(b), Lists()) <==> KeysOk(a) && KeysOk(b)
  {
    var keys, first, second := Lists(), ToObject(a), ToObject(b);
    AllKeysSplit(a.skills, b.skills);
    AllKeysSplit(a.tools, b.tools);
    AllKeysSplit(a.softSkills, b.softSkills);
    assert keys[0] in keys && keys[1] in keys && keys[2] in keys;
    assert first[keys[0]].items == a.skills && first[keys[1]].items == a.tools && first[keys[2]].items == a.softSkills;
    assert second[keys[0]].items == b.skills && second[keys[1]].items == b.tools
           && second[keys[2]].items == b.softSkills;
  }

  /** `merged` starts as the first dictionary and both loops overwrite its entries. */
  method MergeNormalised(first: Object, second: Object, ghost a: Record, ghost b: Record) returns (out: Merged)
    requires first == ToObject(a) && second == ToObject(b)
    ensures out == if KeysOk(a) && KeysOk(b) then Ok(ToObject(Combine(a, b))) else Err(TypeError)
  {
    var base := PreferSections(first, second, Sections());
    SectionsAssembled(a, b, base);
    out := UniteLists(first, second, base, Lists());
    ListsAreKeys(a, b);
    if out.Ok? {
      ListsAssembled(a, b, out.value);
    } else {
      assert out.error.TypeError?;
    }
  }

  method MergeParsedData(primary: Object, focused: Object) returns (out: Merged)
    ensures out == Merge(primary, focused)
  {
    var first := NormaliseParsedData(primary);
    var second := NormaliseParsedData(focused);
    out := MergeNormalised(first, second, Parse(primary), Parse(focused));
  }
}

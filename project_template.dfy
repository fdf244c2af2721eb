/** The script that adds a hand-written list of projects to the catalogue:
    every project is validated first (type and category come from closed
    lists), then the names are checked against the catalogue, and only
    when both checks pass are the projects inserted one by one, a failed
    insert not stopping the rest. */
module ProjectTemplate {
  import opened Values
  import opened Text

  /** The 25 categories a project may belong to. */
  const Categories: seq<string> := [
    "Databases & Data Storage",
    "Web Frameworks & Libraries",
    "Backend & API Frameworks",
    "DevOps & Infrastructure",
    "AI & Machine Learning",
    "Collaboration & Productivity",
    "Developer Tools",
    "Security & Authentication",
    "Content Management",
    "Communication & Messaging",
    "Design & Creative Tools",
    "Analytics & Monitoring",
    "E-commerce & Payments",
    "Mobile Development",
    "Testing & QA",
    "Cloud & Hosting",
    "Networking & Protocols",
    "Data Science & Analytics",
    "IoT & Embedded Systems",
    "Gaming & Graphics",
    "Audio & Video",
    "Blockchain & Web3",
    "Education & Learning",
    "Healthcare & Medical",
    "Finance & Accounting"]

  const ProjectTypes: seq<string> := ["open-source", "saas", "hybrid"]

  /** An entry of the list to add; a property left out is `None`, and a
      `selfHostable` that is not a boolean is `None` too. */
  datatype Candidate = Candidate(
    name: Option<string>,
    projectType: Option<string>,
    category: Option<string>,
    description: Option<string>,
    selfHostable: Option<bool>,
    url: Option<string>,
    githubUrl: Option<string>,
    logo: Option<string>,
    tags: Option<string>,
    yearCreated: Option<int>,
    license: Option<string>,
    techStack: Option<string>,
    alternativeTo: Option<string>)

  datatype ValidationError =
    | NameRequired
    | TypeInvalid
    | CategoryInvalid(given: Option<string>)
    | DescriptionRequired
    | SelfHostableInvalid

  /** A value as a template literal shows it. */
  function Shown(s: Option<string>): string {
    if s.Some? then s.value else "undefined"
  }

  function Message(e: ValidationError): string {
    match e
    case NameRequired => "name is required"
    case TypeInvalid => "type must be \"open-source\", \"saas\", or \"hybrid\""
    case CategoryInvalid(given) =>
      "category \"" + Shown(given) + "\" is not valid. Choose from: " + Join(Categories, ", ")
    case DescriptionRequired => "description is required"
    case SelfHostableInvalid => "selfHostable must be true or false"
  }

  /** The position of each check in the validator. */
  function Rank(e: ValidationError): nat {
    match e
    case NameRequired => 0
    case TypeInvalid => 1
    case CategoryInvalid(_) => 2
    case DescriptionRequired => 3
    case SelfHostableInvalid => 4
  }

  /** `!s || s.trim() === ''`. */
  predicate Blank(s: Option<string>) {
    s.None? || Trim(s.value) == ""
  }

  /** `options.includes(s)`. */
  predicate Listed(s: Option<string>, options: seq<string>) {
    s.Some? && Includes(options, s.value)
  }

  /** `options.includes(x)`, one option at a time. */
  predicate Includes(options: seq<string>, x: string) {
    options != [] && (options[0] == x || Includes(options[1..], x))
  }

  lemma {:induction false} IncludesIsIn(options: seq<string>, x: string)
    ensures Includes(options, x) <==> x in options
  {
    if options != [] {
      IncludesIsIn(options[1..], x);
      assert options == [options[0]] + options[1..];
    }
  }

  /** What a valid entry is. */
  predicate IsValid(p: Candidate) {
    && !Blank(p.name)
    && Listed(p.projectType, ProjectTypes)
    && Listed(p.category, Categories)
    && !Blank(p.description)
    && p.selfHostable.Some?
  }

  /** Every error comes from a later check than the one before it. */
  predicate InCheckOrder(errors: seq<ValidationError>) {
    forall i, j :: 0 <= i < j < |errors| ==> Rank(errors[i]) < Rank(errors[j])
  }

  /** Which of the five checks an entry fails. */
  datatype Failed = Failed(name: bool, projectType: bool, category: bool, description: bool, selfHostable: bool)

  function FailedChecks(p: Candidate): (f: Failed)
    ensures f == Failed(false, false, false, false, false) <==> IsValid(p)
  {
    Failed(Blank(p.name), !Listed(p.projectType, ProjectTypes), !Listed(p.category, Categories),
           Blank(p.description), p.selfHostable.None?)
  }

  /** `if (failed) errors.push(e)`. */
  function Push(errors: seq<ValidationError>, failed: bool, e: ValidationError): seq<ValidationError> {
    if failed then errors + [e] else errors
  }

  lemma PushHas(errors: seq<ValidationError>, failed: bool, e: ValidationError)
    ensures forall x :: x in Push(errors, failed, e) <==> x in errors || (failed && x == e)
    ensures Push(errors, failed, e) == [] <==> errors == [] && !failed
  {
  }

  /** Pushing an error of a later check than every error so far keeps the
      list in check order. */
  lemma {:induction false} PushKeepsOrder(errors: seq<ValidationError>, failed: bool, e: ValidationError)
    requires InCheckOrder(errors)
    requires forall i :: 0 <= i < |errors| ==> Rank(errors[i]) < Rank(e)
    ensures InCheckOrder(Push(errors, failed, e))
    ensures forall i :: 0 <= i < |Push(errors, failed, e)| ==> Rank(Push(errors, failed, e)[i]) <= Rank(e)
  {
    if failed {
      var r := errors + [e];
      forall i, j | 0 <= i < j < |r|
        ensures Rank(r[i]) < Rank(r[j])
      {
        if j < |errors| {
          assert r[j] == errors[j];
        }
      }
    }
  }

  /** One error per failed check, in check order. */
  function Report(f: Failed, given: Option<string>): seq<ValidationError> {
    var e1 := Push([], f.name, NameRequired);
    var e2 := Push(e1, f.projectType, TypeInvalid);
    var e3 := Push(e2, f.category, CategoryInvalid(given));
    var e4 := Push(e3, f.description, DescriptionRequired);
    Push(e4, f.selfHostable, SelfHostableInvalid)
  }

  lemma {:induction false} ReportLists(f: Failed, given: Option<string>)
    ensures forall x :: x in Report(f, given) <==>
      || (f.name && x == NameRequired)
      || (f.projectType && x == TypeInvalid)
      || (f.category && x == CategoryInvalid(given))
      || (f.description && x == DescriptionRequired)
      || (f.selfHostable && x == SelfHostableInvalid)
    ensures Report(f, given) == [] <==> f == Failed(false, false, false, false, false)
  {
    var e1 := Push([], f.name, NameRequired);
    var e2 := Push(e1, f.projectType, TypeInvalid);
    var e3 := Push(e2, f.category, CategoryInvalid(given));
    var e4 := Push(e3, f.description, DescriptionRequired);
    PushHas([], f.name, NameRequired);
    PushHas(e1, f.projectType, TypeInvalid);
    PushHas(e2, f.category, CategoryInvalid(given));
    PushHas(e3, f.description, DescriptionRequired);
    PushHas(e4, f.selfHostable, SelfHostableInvalid);
  }

  lemma {:induction false} ReportInCheckOrder(f: Failed, given: Option<string>)
    ensures InCheckOrder(Report(f, given))
  {
    var e1 := Push([], f.name, NameRequired);
    var e2 := Push(e1, f.projectType, TypeInvalid);
    var e3 := Push(e2, f.category, CategoryInvalid(given));
    var e4 := Push(e3, f.description, DescriptionRequired);
    PushKeepsOrder([], f.name, NameRequired);
    PushKeepsOrder(e1, f.projectType, TypeInvalid);
    PushKeepsOrder(e2, f.category, CategoryInvalid(given));
    PushKeepsOrder(e3, f.description, DescriptionRequired);
    PushKeepsOrder(e4, f.selfHostable, SelfHostableInvalid);
  }

  /** `validateProject`: one error per failed check, in the order the checks
      are made; none exactly when the entry is valid. */
  function ValidateProject(p: Candidate): (errors: seq<ValidationError>)
    ensures errors == [] <==> IsValid(p)
  {
    ReportLists(FailedChecks(p), p.category);
    Report(FailedChecks(p), p.category)
  }

  /** Each error is reported exactly when its check fails. */
  lemma ValidateProjectReportsEachCheck(p: Candidate)
    ensures NameRequired in ValidateProject(p) <==> Blank(p.name)
    ensures TypeInvalid in ValidateProject(p) <==> !Listed(p.projectType, ProjectTypes)
    ensures CategoryInvalid(p.category) in ValidateProject(p) <==> !Listed(p.category, Categories)
    ensures DescriptionRequired in ValidateProject(p) <==> Blank(p.description)
    ensures SelfHostableInvalid in ValidateProject(p) <==> p.selfHostable.None?
  {
    ReportLists(FailedChecks(p), p.category);
  }

  /** The errors come in the order of the checks, at most five of them, and
      a category error names the category given. */
  lemma ValidateProjectInCheckOrder(p: Candidate)
    ensures InCheckOrder(ValidateProject(p))
    ensures |ValidateProject(p)| <= 5
    ensures forall e :: e in ValidateProject(p) && e.CategoryInvalid? ==> e == CategoryInvalid(p.category)
  {
    ReportLists(FailedChecks(p), p.category);
    ReportInCheckOrder(FailedChecks(p), p.category);
    AtMostFiveErrors(ValidateProject(p));
  }

  /** Errors in strictly increasing check order are at most five. */
  lemma AtMostFiveErrors(errors: seq<ValidationError>)
    requires InCheckOrder(errors)
    ensures |errors| <= 5
  {
    if |errors| > 5 {
      RanksClimb(errors, 5);
      assert false;
    }
  }

  lemma {:induction false} RanksClimb(errors: seq<ValidationError>, k: nat)
    requires k < |errors| && InCheckOrder(errors)
    ensures Rank(errors[k]) >= k
  {
    if k > 0 {
      RanksClimb(errors, k - 1);
    }
  }

  /** A name that only holds white space is refused. */
  lemma WhiteSpaceNameRefused(p: Candidate)
    requires p.name.Some? && forall i :: 0 <= i < |p.name.value| ==> IsSpace(p.name.value[i])
    ensures NameRequired in ValidateProject(p)
  {
  }

  // ---------------------------------------------------------------------
  // The script

  /** The positions (from 0) of the entries that fail validation. */
  function FailingIndices(ps: seq<Candidate>): (r: seq<nat>)
    ensures forall k :: 0 <= k < |r| ==> r[k] < |ps|
    ensures forall i :: 0 <= i < |ps| ==> (i in r <==> ValidateProject(ps[i]) != [])
  {
    if ps == [] then []
    else
      var rest := FailingIndices(ps[..|ps| - 1]);
      assert forall i :: 0 <= i < |ps| - 1 ==> ps[..|ps| - 1][i] == ps[i];
      if ValidateProject(ps[|ps| - 1]) != [] then rest + [|ps| - 1] else rest
  }

  lemma FailingIndicesStep(ps: seq<Candidate>, i: nat)
    requires i < |ps|
    ensures FailingIndices(ps[..i + 1])
      == FailingIndices(ps[..i]) + (if ValidateProject(ps[i]) != [] then [i] else [])
  {
    assert ps[..i + 1][..i] == ps[..i];
  }

  /** The names of the entries already in the catalogue, in list order. */
  function DuplicateNames(ps: seq<Candidate>, catalogue: map<string, Candidate>): (r: seq<string>)
    ensures forall n :: n in r <==> n in catalogue && exists i :: 0 <= i < |ps| && ps[i].name == Some(n)
  {
    if ps == [] then []
    else
      var init := ps[..|ps| - 1];
      var rest := DuplicateNames(init, catalogue);
      var last := ps[|ps| - 1];
      assert forall i :: 0 <= i < |init| ==> init[i] == ps[i];
      assert forall n :: (exists i :: 0 <= i < |ps| && ps[i].name == Some(n)) ==>
        (exists i :: 0 <= i < |init| && init[i].name == Some(n)) || last.name == Some(n);
      if last.name.Some? && last.name.value in catalogue then rest + [last.name.value] else rest
  }

  /** The catalogue after inserting the entries one by one (an entry whose
      name is taken, by the catalogue or by an earlier entry, fails and is
      skipped), and the number of inserts that succeeded. */
  function Insertion(catalogue: map<string, Candidate>, ps: seq<Candidate>): (r: (map<string, Candidate>, nat))
    ensures r.1 <= |ps|
    ensures forall n :: n in catalogue ==> n in r.0 && r.0[n] == catalogue[n]
    ensures forall n :: n in r.0 <==> n in catalogue || exists i :: 0 <= i < |ps| && ps[i].name == Some(n)
  {
    if ps == [] then (catalogue, 0)
    else
      var init := ps[..|ps| - 1];
      var before := Insertion(catalogue, init);
      var p := ps[|ps| - 1];
      assert forall i :: 0 <= i < |init| ==> init[i] == ps[i];
      assert forall n :: (exists i :: 0 <= i < |ps| && ps[i].name == Some(n)) ==>
        (exists i :: 0 <= i < |init| && init[i].name == Some(n)) || p.name == Some(n);
      if p.name.Some? && p.name.value !in before.0 then (before.0[p.name.value := p], before.1 + 1)
      else before
  }

  /** Entries with pairwise different names, none of them in the catalogue,
      are all inserted. */
  lemma {:induction false} FreshNamesAllInserted(catalogue: map<string, Candidate>, ps: seq<Candidate>)
    requires forall i :: 0 <= i < |ps| ==> ps[i].name.Some? && ps[i].name.value !in catalogue
    requires forall i, j :: 0 <= i < j < |ps| ==> ps[i].name != ps[j].name
    ensures Insertion(catalogue, ps).1 == |ps|
    ensures forall i :: 0 <= i < |ps| ==> Insertion(catalogue, ps).0[ps[i].name.value] == ps[i]
  {
    if ps != [] {
      var init := ps[..|ps| - 1];
      var p := ps[|ps| - 1];
      FreshNamesAllInserted(catalogue, init);
      var before := Insertion(catalogue, init);
      assert p.name.value !in before.0 by {
        assert forall i :: 0 <= i < |init| ==> init[i] == ps[i];
      }
      forall i | 0 <= i < |ps|
        ensures Insertion(catalogue, ps).0[ps[i].name.value] == ps[i]
      {
        if i < |ps| - 1 {
          assert init[i] == ps[i];
        }
      }
    }
  }

  /** A name repeated within the list makes its second insert fail. */
  lemma {:induction false} RepeatedNameFailsOnce(catalogue: map<string, Candidate>, a: Candidate, b: Candidate)
    requires a.name.Some? && a.name.value !in catalogue && b.name == a.name
    ensures Insertion(catalogue, [a, b]).1 == 1
    ensures Insertion(catalogue, [a, b]).0[a.name.value] == a
  {
    assert [a, b][..1] == [a];
    assert [a][..0] == [];
  }

  datatype Outcome =
    | NothingToAdd
    | InvalidEntries(failing: seq<nat>)
    | AlreadyPresent(names: seq<string>)
    | Added(successCount: nat)

  predicate AllValid(ps: seq<Candidate>) {
    forall i :: 0 <= i < |ps| ==> ValidateProject(ps[i]) == []
  }

  /** Some position is reported exactly when some entry is invalid. */
  lemma FailingIffInvalid(ps: seq<Candidate>)
    ensures FailingIndices(ps) != [] <==> !AllValid(ps)
  {
    var r := FailingIndices(ps);
    if r != [] {
      assert r[0] in r;
    }
  }

  /** The catalogue table, keyed by the (unique) project name. */
  class Catalogue {
    var projects: map<string, Candidate>

    constructor(projects0: map<string, Candidate>)
      ensures projects == projects0
    {
      projects := projects0;
    }

    /** The validation pass: every entry is validated, and the positions of
        those that fail are collected. */
    method ValidateAll(ps: seq<Candidate>) returns (hasErrors: bool, failing: seq<nat>)
      ensures failing == FailingIndices(ps)
      ensures hasErrors <==> !AllValid(ps)
    {
      hasErrors := false;
      failing := [];
      var i := 0;
      while i < |ps|
        invariant 0 <= i <= |ps|
        invariant failing == FailingIndices(ps[..i])
        invariant hasErrors <==> failing != []
      {
        FailingIndicesStep(ps, i);
        var errors := ValidateProject(ps[i]);
        if |errors| > 0 {
          failing := failing + [i];
          hasErrors := true;
        }
        i := i + 1;
      }
      assert ps[..i] == ps;
      FailingIffInvalid(ps);
    }

    /** The insertion pass: each entry is created in turn, and one whose name
        is already taken fails without stopping the rest. */
    method InsertAll(ps: seq<Candidate>) returns (successCount: nat)
      modifies this
      ensures (projects, successCount) == Insertion(old(projects), ps)
    {
      successCount := 0;
      var i := 0;
      while i < |ps|
        invariant 0 <= i <= |ps|
        invariant (projects, successCount) == Insertion(old(projects), ps[..i])
      {
        assert ps[..i + 1][..i] == ps[..i];
        var p := ps[i];
        if p.name.Some? && p.name.value !in projects {
          projects := projects[p.name.value := p];
          successCount := successCount + 1;
        }
        i := i + 1;
      }
      assert ps[..i] == ps;
    }

    /** The script's `main` on the list `newProjects`. */
    method AddProjects(newProjects: seq<Candidate>) returns (outcome: Outcome)
      modifies this
      ensures newProjects == [] <==> outcome == NothingToAdd
      ensures outcome.InvalidEntries? <==> newProjects != [] && !AllValid(newProjects)
      ensures outcome.InvalidEntries? ==> outcome.failing == FailingIndices(newProjects) && outcome.failing != []
      ensures outcome.AlreadyPresent? <==>
        newProjects != [] && AllValid(newProjects) && DuplicateNames(newProjects, old(projects)) != []
      ensures outcome.AlreadyPresent? ==> outcome.names == DuplicateNames(newProjects, old(projects))
      ensures !outcome.Added? ==> projects == old(projects)
      ensures outcome.Added? ==>
        && projects == Insertion(old(projects), newProjects).0
        && outcome.successCount == Insertion(old(projects), newProjects).1
    {
      if |newProjects| == 0 {
        return NothingToAdd;
      }
      var hasErrors, failing := ValidateAll(newProjects);
      if hasErrors {
        FailingIffInvalid(newProjects);
        return InvalidEntries(failing);
      }
      var duplicates := DuplicateNames(newProjects, projects);
      if |duplicates| > 0 {
        return AlreadyPresent(duplicates);
      }
      var successCount := InsertAll(newProjects);
      outcome := Added(successCount);
    }
  }
}

/** The records of a business impact analysis project and their mapping to
    and from a keyed dictionary (`BIAProject.to_dict` / `BIAProject.from_dict`).

    Reading follows the two ways the source builds records:
    - keyword construction (`Organization(**d)`, `Dependency(**d)`,
      `Impact(**d)`): the value must be a dict, every key must be a declared
      field, required fields must be present, and absent optional fields take
      their declared defaults;
    - `.get` with a default (the project and each process): unknown keys are
      ignored and absent keys take the default given at the call. */
module Models {
  import opened Wrappers
  import opened Values

  datatype Organization = Organization(name: string, industry: string, headquarters: string)

  datatype Dependency = Dependency(name: string, category: string, criticality: int)

  datatype Process = Process(name: string, owner: string, description: string, dependencies: seq<Dependency>)

  datatype Impact = Impact(processName: string, financialScore: int, operationalScore: int, reputationalScore: int)

  datatype Project = Project(title: string, organization: Organization, processes: seq<Process>, impacts: seq<Impact>)

  const DefaultTitle := "Untitled BIA Project"
  const DefaultOrganization := Organization("", "", "")
  const DefaultCategory := "Internal"
  const DefaultCriticality := 3
  const DefaultScore := 1

  /** `BIAProject()`: the project a fresh session starts from. */
  const DefaultProject := Project(DefaultTitle, DefaultOrganization, [], [])

  /** The keywords each keyword-constructed record accepts. */
  const OrganizationKeys: set<string> := {"name", "industry", "headquarters"}
  const DependencyKeys: set<string> := {"name", "category", "criticality"}
  const ImpactKeys: set<string> := {"process_name", "financial_score", "operational_score", "reputational_score"}

  // ---------------------------------------------------------------------------
  // to_dict

  function OrganizationToDict(o: Organization): Value {
    Object(map["name" := Str(o.name), "industry" := Str(o.industry), "headquarters" := Str(o.headquarters)])
  }

  function DependencyToDict(d: Dependency): Value {
    Object(map["name" := Str(d.name), "category" := Str(d.category), "criticality" := Int(d.criticality)])
  }

  function DependenciesToDict(ds: seq<Dependency>): seq<Value> {
    seq(|ds|, i requires 0 <= i < |ds| => DependencyToDict(ds[i]))
  }

  function ProcessToDict(p: Process): Value {
    Object(map["name" := Str(p.name), "owner" := Str(p.owner), "description" := Str(p.description),
               "dependencies" := List(DependenciesToDict(p.dependencies))])
  }

  function ProcessesToDict(ps: seq<Process>): seq<Value> {
    seq(|ps|, i requires 0 <= i < |ps| => ProcessToDict(ps[i]))
  }

  function ImpactToDict(i: Impact): Value {
    Object(map["process_name" := Str(i.processName), "financial_score" := Int(i.financialScore),
               "operational_score" := Int(i.operationalScore), "reputational_score" := Int(i.reputationalScore)])
  }

  function ImpactsToDict(impacts: seq<Impact>): seq<Value> {
    seq(|impacts|, k requires 0 <= k < |impacts| => ImpactToDict(impacts[k]))
  }

  /** `dataclasses.asdict(project)`: every field under its own name, nested
      records as dicts and lists as lists, in the records' order. */
  function ToDict(p: Project): (v: Value)
    ensures v.Object? && v.fields.Keys == {"title", "organization", "processes", "impacts"}
    ensures v.fields["title"] == Str(p.title)
    ensures v.fields["organization"] == OrganizationToDict(p.organization)
    ensures v.fields["processes"].List? && |v.fields["processes"].items| == |p.processes|
    ensures forall k :: 0 <= k < |p.processes| ==> v.fields["processes"].items[k] == ProcessToDict(p.processes[k])
    ensures v.fields["impacts"].List? && |v.fields["impacts"].items| == |p.impacts|
    ensures forall k :: 0 <= k < |p.impacts| ==> v.fields["impacts"].items[k] == ImpactToDict(p.impacts[k])
  {
    Object(map["title" := Str(p.title), "organization" := OrganizationToDict(p.organization),
               "processes" := List(ProcessesToDict(p.processes)), "impacts" := List(ImpactsToDict(p.impacts))])
  }

  // ---------------------------------------------------------------------------
  // from_dict

  /** `Organization(**v)`: every field optional with default "". */
  function DecodeOrganization(v: Value): (r: Result<Organization, DecodeError>)
    ensures !v.Object? ==> r == Err(NotAMapping)
    ensures v.Object? && !(v.fields.Keys <= OrganizationKeys) ==> r == Err(UnexpectedKeyword)
    ensures r.Ok? ==> v.Object? && v.fields.Keys <= OrganizationKeys
    ensures r.Ok? ==> ReadsStr(v.fields, "name", "", r.value.name)
                      && ReadsStr(v.fields, "industry", "", r.value.industry)
                      && ReadsStr(v.fields, "headquarters", "", r.value.headquarters)
    ensures (v.Object? && v.fields.Keys <= OrganizationKeys
             && forall k :: k in v.fields ==> v.fields[k].Str?) ==> r.Ok?
  {
    match v
    case Object(m) =>
      if !(m.Keys <= OrganizationKeys) then Err(UnexpectedKeyword)
      else
        var name :- StrField(m, "name", "");
        var industry :- StrField(m, "industry", "");
        var headquarters :- StrField(m, "headquarters", "");
        Ok(Organization(name, industry, headquarters))
    case _ => Err(NotAMapping)
  }

  /** `Dependency(**v)`: `name` required, `category` and `criticality` optional. */
  function DecodeDependency(v: Value): (r: Result<Dependency, DecodeError>)
    ensures !v.Object? ==> r == Err(NotAMapping)
    ensures v.Object? && !(v.fields.Keys <= DependencyKeys) ==> r == Err(UnexpectedKeyword)
    ensures v.Object? && v.fields.Keys <= DependencyKeys && "name" !in v.fields ==> r == Err(MissingArgument("name"))
    ensures r.Ok? ==> v.Object? && v.fields.Keys <= DependencyKeys && "name" in v.fields
    ensures r.Ok? ==> ReadsStr(v.fields, "name", "", r.value.name)
                      && ReadsStr(v.fields, "category", DefaultCategory, r.value.category)
                      && ReadsInt(v.fields, "criticality", DefaultCriticality, r.value.criticality)
    ensures (v.Object? && v.fields.Keys <= DependencyKeys && "name" in v.fields && v.fields["name"].Str?
             && ("category" in v.fields ==> v.fields["category"].Str?)
             && ("criticality" in v.fields ==> v.fields["criticality"].Int?)) ==> r.Ok?
  {
    match v
    case Object(m) =>
      if !(m.Keys <= DependencyKeys) then Err(UnexpectedKeyword)
      else if "name" !in m then Err(MissingArgument("name"))
      else
        var name :- StrField(m, "name", "");
        var category :- StrField(m, "category", DefaultCategory);
        var criticality :- IntField(m, "criticality", DefaultCriticality);
        Ok(Dependency(name, category, criticality))
    case _ => Err(NotAMapping)
  }

  /** One entry of `processes`: read with `.get`, so unknown keys are ignored
      and every field has a default; its dependencies are decoded first. */
  function DecodeProcess(v: Value): (r: Result<Process, DecodeError>)
    ensures !v.Object? ==> r == Err(NotAMapping)
    ensures r.Ok? ==> v.Object?
    ensures r.Ok? ==> ReadsStr(v.fields, "name", "", r.value.name)
                      && ReadsStr(v.fields, "owner", "", r.value.owner)
                      && ReadsStr(v.fields, "description", "", r.value.description)
    ensures r.Ok? ==> Elements(Get(v.fields, "dependencies", List([])), "dependencies").Ok?
    ensures r.Ok? ==> var items := Elements(Get(v.fields, "dependencies", List([])), "dependencies").value;
                      DecodeEach(items, DecodeDependency) == Ok(r.value.dependencies)
    ensures r.Ok? && "dependencies" !in v.fields ==> r.value.dependencies == []
    ensures (v.Object?
             && (forall k :: k in v.fields && (k == "name" || k == "owner" || k == "description") ==> v.fields[k].Str?)
             && var items := Elements(Get(v.fields, "dependencies", List([])), "dependencies");
                items.Ok? && DecodeEach(items.value, DecodeDependency).Ok?) ==> r.Ok?
  {
    match v
    case Object(m) =>
      var items :- Elements(Get(m, "dependencies", List([])), "dependencies");
      var deps :- DecodeEach(items, DecodeDependency);
      var name :- StrField(m, "name", "");
      var owner :- StrField(m, "owner", "");
      var description :- StrField(m, "description", "");
      Ok(Process(name, owner, description, deps))
    case _ => Err(NotAMapping)
  }

  /** `Impact(**v)`: `process_name` required, the three scores optional. */
  function DecodeImpact(v: Value): (r: Result<Impact, DecodeError>)
    ensures !v.Object? ==> r == Err(NotAMapping)
    ensures v.Object? && !(v.fields.Keys <= ImpactKeys) ==> r == Err(UnexpectedKeyword)
    ensures v.Object? && v.fields.Keys <= ImpactKeys && "process_name" !in v.fields ==> r == Err(MissingArgument("process_name"))
    ensures r.Ok? ==> v.Object? && v.fields.Keys <= ImpactKeys && "process_name" in v.fields
    ensures r.Ok? ==> ReadsStr(v.fields, "process_name", "", r.value.processName)
                      && ReadsInt(v.fields, "financial_score", DefaultScore, r.value.financialScore)
                      && ReadsInt(v.fields, "operational_score", DefaultScore, r.value.operationalScore)
                      && ReadsInt(v.fields, "reputational_score", DefaultScore, r.value.reputationalScore)
    ensures (v.Object? && v.fields.Keys <= ImpactKeys && "process_name" in v.fields && v.fields["process_name"].Str?
             && forall k :: k in v.fields && k != "process_name" ==> v.fields[k].Int?) ==> r.Ok?
  {
    match v
    case Object(m) =>
      if !(m.Keys <= ImpactKeys) then Err(UnexpectedKeyword)
      else if "process_name" !in m then Err(MissingArgument("process_name"))
      else
        var processName :- StrField(m, "process_name", "");
        var financial :- IntField(m, "financial_score", DefaultScore);
        var operational :- IntField(m, "operational_score", DefaultScore);
        var reputational :- IntField(m, "reputational_score", DefaultScore);
        Ok(Impact(processName, financial, operational, reputational))
    case _ => Err(NotAMapping)
  }

  /** `BIAProject.from_dict`: the organization, then the processes, then the
      impacts, then the title; the first rejection is the result. Top-level
      keys other than the four fields are ignored. */
  function FromDict(data: Value): (r: Result<Project, DecodeError>)
    ensures !data.Object? ==> r == Err(NotAMapping)
    ensures r.Ok? ==> data.Object? && ReadsStr(data.fields, "title", DefaultTitle, r.value.title)
    ensures r.Ok? ==> DecodeOrganization(Get(data.fields, "organization", EmptyObject)) == Ok(r.value.organization)
    ensures r.Ok? ==> var items := Elements(Get(data.fields, "processes", List([])), "processes");
                      items.Ok? && DecodeEach(items.value, DecodeProcess) == Ok(r.value.processes)
    ensures r.Ok? ==> var items := Elements(Get(data.fields, "impacts", List([])), "impacts");
                      items.Ok? && DecodeEach(items.value, DecodeImpact) == Ok(r.value.impacts)
    ensures data.Object? && DecodeOrganization(Get(data.fields, "organization", EmptyObject)).Err? ==> r.Err?
    ensures (data.Object?
             && DecodeOrganization(Get(data.fields, "organization", EmptyObject)).Ok?
             && (var items := Elements(Get(data.fields, "processes", List([])), "processes");
                 items.Ok? && DecodeEach(items.value, DecodeProcess).Ok?)
             && (var items := Elements(Get(data.fields, "impacts", List([])), "impacts");
                 items.Ok? && DecodeEach(items.value, DecodeImpact).Ok?)
             && ("title" in data.fields ==> data.fields["title"].Str?)) ==> r.Ok?
  {
    match data
    case Object(m) =>
      var organization :- DecodeOrganization(Get(m, "organization", EmptyObject));
      var processItems :- Elements(Get(m, "processes", List([])), "processes");
      var processes :- DecodeEach(processItems, DecodeProcess);
      var impactItems :- Elements(Get(m, "impacts", List([])), "impacts");
      var impacts :- DecodeEach(impactItems, DecodeImpact);
      var title :- StrField(m, "title", DefaultTitle);
      Ok(Project(title, organization, processes, impacts))
    case _ => Err(NotAMapping)
  }

  // ---------------------------------------------------------------------------
  // Round trip

  lemma DependenciesRoundTrip(ds: seq<Dependency>)
    ensures DecodeEach(DependenciesToDict(ds), DecodeDependency) == Ok(ds)
  {
    var items := DependenciesToDict(ds);
    forall i | 0 <= i < |items|
      ensures DecodeDependency(items[i]) == Ok(ds[i])
    {
      var m := items[i].fields;
      assert m.Keys == DependencyKeys;
    }
    DecodeEachExact(items, DecodeDependency, ds);
  }

  lemma ProcessRoundTrip(p: Process)
    ensures DecodeProcess(ProcessToDict(p)) == Ok(p)
  {
    DependenciesRoundTrip(p.dependencies);
  }

  lemma ImpactRoundTrip(i: Impact)
    ensures DecodeImpact(ImpactToDict(i)) == Ok(i)
  {
    assert ImpactToDict(i).fields.Keys == ImpactKeys;
  }

  lemma ProcessesRoundTrip(ps: seq<Process>)
    ensures DecodeEach(ProcessesToDict(ps), DecodeProcess) == Ok(ps)
  {
    var items := ProcessesToDict(ps);
    forall k | 0 <= k < |items|
      ensures DecodeProcess(items[k]) == Ok(ps[k])
    {
      ProcessRoundTrip(ps[k]);
    }
    DecodeEachExact(items, DecodeProcess, ps);
  }

  lemma ImpactsRoundTrip(impacts: seq<Impact>)
    ensures DecodeEach(ImpactsToDict(impacts), DecodeImpact) == Ok(impacts)
  {
    var items := ImpactsToDict(impacts);
    forall k | 0 <= k < |items|
      ensures DecodeImpact(items[k]) == Ok(impacts[k])
    {
      ImpactRoundTrip(impacts[k]);
    }
    DecodeEachExact(items, DecodeImpact, impacts);
  }

  lemma OrganizationRoundTrip(o: Organization)
    ensures DecodeOrganization(OrganizationToDict(o)) == Ok(o)
  {
    assert OrganizationToDict(o).fields.Keys == OrganizationKeys;
  }

  /** Reading back what `to_dict` wrote gives the same project: title,
      organization and every list in its original order. */
  lemma RoundTrip(p: Project)
    ensures FromDict(ToDict(p)) == Ok(p)
  {
    var m := ToDict(p).fields;
    assert m["organization"] == OrganizationToDict(p.organization);
    assert m["processes"] == List(ProcessesToDict(p.processes));
    assert m["impacts"] == List(ImpactsToDict(p.impacts));
    assert m["title"] == Str(p.title);
    OrganizationRoundTrip(p.organization);
    ProcessesRoundTrip(p.processes);
    ImpactsRoundTrip(p.impacts);
  }

  // ---------------------------------------------------------------------------
  // Defaults and rejections

  /** A dict that names none of the four project fields, whatever else it
      holds, reads as the default project. */
  lemma MissingFieldsGiveDefaultProject(m: map<string, Value>)
    requires "title" !in m && "organization" !in m && "processes" !in m && "impacts" !in m
    ensures FromDict(Object(m)) == Ok(DefaultProject)
  {
    DecodeEachExact([], DecodeProcess, []);
    DecodeEachExact([], DecodeImpact, []);
  }

  /** A process record that names none of its fields reads as an unnamed
      process with no dependencies; its other keys are ignored. */
  lemma MissingFieldsGiveDefaultProcess(m: map<string, Value>)
    requires "name" !in m && "owner" !in m && "description" !in m && "dependencies" !in m
    ensures DecodeProcess(Object(m)) == Ok(Process("", "", "", []))
  {
    DecodeEachExact([], DecodeDependency, []);
  }

  /** A dependency or impact record naming only its required field takes
      the declared defaults for the rest. */
  lemma RequiredFieldOnlyGivesDefaults(name: string)
    ensures DecodeDependency(Object(map["name" := Str(name)])) == Ok(Dependency(name, DefaultCategory, DefaultCriticality))
    ensures DecodeImpact(Object(map["process_name" := Str(name)])) == Ok(Impact(name, DefaultScore, DefaultScore, DefaultScore))
  {
  }

  /** One rejected impact record rejects the whole project. */
  lemma BadImpactRejectsProject(m: map<string, Value>, k: nat)
    requires "impacts" in m && m["impacts"].List? && k < |m["impacts"].items|
    requires DecodeImpact(m["impacts"].items[k]).Err?
    ensures FromDict(Object(m)).Err?
  {
  }

  /** One rejected dependency record, in any process, rejects the whole project. */
  lemma BadDependencyRejectsProject(m: map<string, Value>, k: nat, j: nat)
    requires "processes" in m && m["processes"].List? && k < |m["processes"].items|
    requires m["processes"].items[k].Object?
    requires "dependencies" in m["processes"].items[k].fields
    requires m["processes"].items[k].fields["dependencies"].List?
    requires j < |m["processes"].items[k].fields["dependencies"].items|
    requires DecodeDependency(m["processes"].items[k].fields["dependencies"].items[j]).Err?
    ensures FromDict(Object(m)).Err?
  {
    assert DecodeProcess(m["processes"].items[k]).Err?;
  }
}

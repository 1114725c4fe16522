/** The state changes the data-entry forms make, lifted out of the widgets:
    each is a function from the old state and the submitted values to the new
    state. Widget rendering, session state and navigation are not modelled.

    The fuzzy-number, asset and decision-matrix records the forms build are
    declared here with the fields the forms use; the file that defines them
    is not part of this model. */
module Forms {
  import opened Models
  import Calculations

  // ---------------------------------------------------------------------------
  // Triangular fuzzy numbers

  /** A triangular fuzzy number (lower, middle, upper). */
  datatype Tfn = Tfn(lower: real, middle: real, upper: real)

  predicate Ordered(t: Tfn) {
    t.lower <= t.middle <= t.upper
  }

  /** The neutral number (1, 1, 1) new cells and default inputs start from. */
  const Unit := Tfn(1.0, 1.0, 1.0)

  function MaxReal(a: real, b: real): real {
    if a >= b then a else b
  }

  /** The number an editor stores for the typed values (l, m, u): `lower` is
      kept, and `middle` and `upper` are raised just enough to restore
      lower <= middle <= upper. */
  function Clamp(l: real, m: real, u: real): (t: Tfn)
    ensures Ordered(t)
    ensures t.lower == l
    ensures m <= t.middle && u <= t.upper
    ensures t.middle == m || t.middle == l
    ensures t.upper == u || t.upper == t.middle
    ensures l <= m <= u ==> t == Tfn(l, m, u)
  {
    var middle := MaxReal(l, m);
    Tfn(l, middle, MaxReal(middle, u))
  }

  /** Clamping an already clamped number changes nothing. */
  lemma ClampIdempotent(l: real, m: real, u: real)
    ensures var t := Clamp(l, m, u); Clamp(t.lower, t.middle, t.upper) == t
  {
  }

  /** A fully reversed entry collapses onto its lower value. */
  lemma ClampReversed()
    ensures Clamp(5.0, 2.0, 1.0) == Tfn(5.0, 5.0, 5.0)
  {
  }

  // ---------------------------------------------------------------------------
  // Decision matrix

  datatype CriterionType = Benefit | Cost

  datatype Criterion = Criterion(name: string, criterionType: CriterionType)

  datatype Product = Product(name: string, description: string)

  /** Criteria and products, and one row of fuzzy evaluations per product
      with one cell per criterion. */
  datatype DecisionMatrix = DecisionMatrix(criteria: seq<Criterion>, products: seq<Product>, evaluations: seq<seq<Tfn>>)

  /** The grid has exactly one row per product and one cell per criterion. */
  ghost predicate WellShaped(dm: DecisionMatrix) {
    && |dm.evaluations| == |dm.products|
    && forall i :: 0 <= i < |dm.evaluations| ==> |dm.evaluations[i]| == |dm.criteria|
  }

  /** A row cut or padded with `Unit` to exactly `width` cells. */
  function FitRow(row: seq<Tfn>, width: nat): (r: seq<Tfn>)
    ensures |r| == width
    ensures forall j :: 0 <= j < width ==> r[j] == (if j < |row| then row[j] else Unit)
  {
    if |row| < width then row + seq(width - |row|, _ => Unit) else row[..width]
  }

  /** `_ensure_matrix_shape`: a grid with the wrong number of rows is
      replaced by one of neutral cells; otherwise each row is padded with
      neutral cells or cut to the number of criteria. */
  function EnsureMatrixShape(dm: DecisionMatrix): (r: DecisionMatrix)
    ensures WellShaped(r)
    ensures r.criteria == dm.criteria && r.products == dm.products
    ensures |dm.evaluations| != |dm.products| ==>
              forall i, j :: 0 <= i < |r.evaluations| && 0 <= j < |r.evaluations[i]| ==> r.evaluations[i][j] == Unit
    ensures |dm.evaluations| == |dm.products| ==>
              forall i, j :: 0 <= i < |r.evaluations| && 0 <= j < |dm.criteria| ==>
                r.evaluations[i][j] == (if j < |dm.evaluations[i]| then dm.evaluations[i][j] else Unit)
    ensures WellShaped(dm) ==> r == dm
  {
    var width := |dm.criteria|;
    if |dm.evaluations| != |dm.products| then
      dm.(evaluations := seq(|dm.products|, _ => seq(width, _ => Unit)))
    else
      var rows := seq(|dm.evaluations|, i requires 0 <= i < |dm.evaluations| => FitRow(dm.evaluations[i], width));
      assert WellShaped(dm) ==> forall i :: 0 <= i < |rows| ==> rows[i] == dm.evaluations[i];
      dm.(evaluations := rows)
  }

  /** Repairing the shape twice is the same as repairing it once. */
  lemma EnsureMatrixShapeIdempotent(dm: DecisionMatrix)
    ensures EnsureMatrixShape(EnsureMatrixShape(dm)) == EnsureMatrixShape(dm)
  {
  }

  /** The "Add criterion" form: a criterion with a non-empty name is appended. */
  function AddCriterion(dm: DecisionMatrix, name: string, criterionType: CriterionType): (r: DecisionMatrix)
    ensures r.products == dm.products && r.evaluations == dm.evaluations
    ensures name == "" ==> r == dm
    ensures name != "" ==> r.criteria == dm.criteria + [Criterion(name, criterionType)]
  {
    if name == "" then dm else dm.(criteria := dm.criteria + [Criterion(name, criterionType)])
  }

  /** The "Add product" form: a product with a non-empty name is appended. */
  function AddProduct(dm: DecisionMatrix, name: string, description: string): (r: DecisionMatrix)
    ensures r.criteria == dm.criteria && r.evaluations == dm.evaluations
    ensures name == "" ==> r == dm
    ensures name != "" ==> r.products == dm.products + [Product(name, description)]
  {
    if name == "" then dm else dm.(products := dm.products + [Product(name, description)])
  }

  /** Adding a criterion to a well-shaped matrix, then repairing it, keeps
      every evaluation and gives each product a neutral cell for the new
      criterion. */
  lemma AddCriterionPadsRows(dm: DecisionMatrix, name: string, criterionType: CriterionType)
    requires WellShaped(dm) && name != ""
    ensures var r := EnsureMatrixShape(AddCriterion(dm, name, criterionType));
            && |r.evaluations| == |dm.evaluations|
            && forall i :: 0 <= i < |r.evaluations| ==> r.evaluations[i] == dm.evaluations[i] + [Unit]
  {
    var r := EnsureMatrixShape(AddCriterion(dm, name, criterionType));
    forall i | 0 <= i < |r.evaluations|
      ensures r.evaluations[i] == dm.evaluations[i] + [Unit]
    {
      assert |r.evaluations[i]| == |dm.evaluations[i] + [Unit]|;
    }
  }

  /** Adding a product to a well-shaped matrix, then repairing it, discards
      every evaluation: the row count no longer matches, so the whole grid is
      reset to neutral cells. */
  lemma AddProductResetsGrid(dm: DecisionMatrix, name: string, description: string)
    requires WellShaped(dm) && name != ""
    ensures var r := EnsureMatrixShape(AddProduct(dm, name, description));
            && |r.evaluations| == |dm.evaluations| + 1
            && forall i, j :: 0 <= i < |r.evaluations| && 0 <= j < |r.evaluations[i]| ==> r.evaluations[i][j] == Unit
  {
  }

  // ---------------------------------------------------------------------------
  // Processes, dependencies and impacts

  /** The "Add process" form: a process with a non-empty name is appended,
      with no dependencies; nothing else changes. */
  function AddProcess(p: Project, name: string, owner: string, description: string): (r: Project)
    ensures r.title == p.title && r.organization == p.organization && r.impacts == p.impacts
    ensures name == "" ==> r == p
    ensures name != "" ==> r.processes == p.processes + [Process(name, owner, description, [])]
  {
    if name == "" then p else p.(processes := p.processes + [Process(name, owner, description, [])])
  }

  /** The review summary counts a process added through the form. */
  lemma AddProcessCounted(p: Project, name: string, owner: string, description: string)
    requires name != ""
    ensures Calculations.SummarizeRisk(AddProcess(p, name, owner, description)).processCount
            == Calculations.SummarizeRisk(p).processCount + 1
  {
  }

  /** The position of the first element of `xs` whose name is `target`, or
      `|xs|` when there is none: the `next(...)` lookups of the dependency and
      impact forms. */
  function FirstNamed<T>(xs: seq<T>, name: T -> string, target: string): (k: nat)
    ensures k <= |xs|
    ensures k < |xs| ==> name(xs[k]) == target
    ensures forall j :: 0 <= j < k ==> name(xs[j]) != target
  {
    if |xs| == 0 then 0
    else if name(xs[0]) == target then 0
    else
      assert forall j :: 1 <= j < |xs| ==> xs[j] == xs[1..][j - 1];
      1 + FirstNamed(xs[1..], name, target)
  }

  function ProcessName(p: Process): string { p.name }

  function ImpactName(i: Impact): string { i.processName }

  /** The "Add dependency" form: a dependency with a non-empty name is
      appended to the first process called `selected`, and to no other;
      when no process has that name nothing changes. */
  function AddDependency(p: Project, selected: string, depName: string, category: string, criticality: int): (r: Project)
    ensures r.title == p.title && r.organization == p.organization && r.impacts == p.impacts
    ensures |r.processes| == |p.processes|
    ensures depName == "" || (forall k :: 0 <= k < |p.processes| ==> p.processes[k].name != selected) ==> r == p
    ensures depName != "" && (exists k :: 0 <= k < |p.processes| && p.processes[k].name == selected) ==>
              exists k :: 0 <= k < |p.processes| && p.processes[k].name == selected
                && (forall j :: 0 <= j < k ==> p.processes[j].name != selected)
                && r.processes == p.processes[k := p.processes[k].(dependencies :=
                     p.processes[k].dependencies + [Dependency(depName, category, criticality)])]
  {
    if |p.processes| == 0 || depName == "" then p
    else
      var k := FirstNamed(p.processes, ProcessName, selected);
      if k == |p.processes| then p
      else
        var proc := p.processes[k];
        p.(processes := p.processes[k := proc.(dependencies := proc.dependencies + [Dependency(depName, category, criticality)])])
  }

  /** The "Save impact" form (only shown once a process exists): the first
      impact recorded for the process takes the new scores in place; when
      there is none, one new impact is appended. Every other impact, and the
      rest of the project, is unchanged. */
  function SaveImpact(p: Project, processName: string, financial: int, operational: int, reputational: int): (r: Project)
    ensures r.title == p.title && r.organization == p.organization && r.processes == p.processes
    ensures |p.processes| == 0 ==> r == p
    ensures |p.processes| > 0 && (exists k :: 0 <= k < |p.impacts| && p.impacts[k].processName == processName) ==>
              exists k :: 0 <= k < |p.impacts| && p.impacts[k].processName == processName
                && (forall j :: 0 <= j < k ==> p.impacts[j].processName != processName)
                && r.impacts == p.impacts[k := Impact(processName, financial, operational, reputational)]
    ensures |p.processes| > 0 && (forall k :: 0 <= k < |p.impacts| ==> p.impacts[k].processName != processName) ==>
              r.impacts == p.impacts + [Impact(processName, financial, operational, reputational)]
  {
    if |p.processes| == 0 then p
    else
      var saved := Impact(processName, financial, operational, reputational);
      var k := FirstNamed(p.impacts, ImpactName, processName);
      if k < |p.impacts| then p.(impacts := p.impacts[k := saved])
      else p.(impacts := p.impacts + [saved])
  }

  /** After saving, looking the process up again finds exactly the saved scores. */
  lemma SavedImpactIsFound(p: Project, processName: string, financial: int, operational: int, reputational: int)
    requires |p.processes| > 0
    ensures var r := SaveImpact(p, processName, financial, operational, reputational);
            var k := FirstNamed(r.impacts, ImpactName, processName);
            k < |r.impacts| && r.impacts[k] == Impact(processName, financial, operational, reputational)
  {
    var r := SaveImpact(p, processName, financial, operational, reputational);
    var k := FirstNamed(p.impacts, ImpactName, processName);
    var k' := FirstNamed(r.impacts, ImpactName, processName);
    assert forall j :: 0 <= j < k ==> r.impacts[j] == p.impacts[j];
    assert k < |r.impacts| && r.impacts[k].processName == processName;
    assert k' == k;
  }

  /** No two impacts are recorded for the same process. */
  ghost predicate DistinctProcessNames(impacts: seq<Impact>) {
    forall i, j :: 0 <= i < j < |impacts| ==> impacts[i].processName != impacts[j].processName
  }

  /** Saving through the form never records a second impact for a process. */
  lemma SaveImpactKeepsNamesDistinct(p: Project, processName: string, financial: int, operational: int, reputational: int)
    requires DistinctProcessNames(p.impacts)
    ensures DistinctProcessNames(SaveImpact(p, processName, financial, operational, reputational).impacts)
  {
  }

  /** Saving slider values keeps every impact score within 1..5. */
  lemma SaveImpactKeepsSliderRange(p: Project, processName: string, financial: int, operational: int, reputational: int)
    requires forall k :: 0 <= k < |p.impacts| ==> Calculations.InSliderRange(p.impacts[k])
    requires 1 <= financial <= 5 && 1 <= operational <= 5 && 1 <= reputational <= 5
    ensures var r := SaveImpact(p, processName, financial, operational, reputational);
            forall k :: 0 <= k < |r.impacts| ==> Calculations.InSliderRange(r.impacts[k])
  {
  }

  // ---------------------------------------------------------------------------
  // Assets

  datatype Asset = Asset(name: string, category: string, owner: string)

  /** PARAM likelihood factors of one asset. */
  datatype LikelihoodInputs = LikelihoodInputs(dpf: Tfn, ddf: Tfn, ucf: Tfn, deF: Tfn)

  /** PARAM impact factors of one asset. */
  datatype ImpactInputs = ImpactInputs(sf: Tfn, pf: Tfn, rc: Tfn, ls: Tfn)

  const UnitLikelihood := LikelihoodInputs(Unit, Unit, Unit, Unit)
  const UnitImpact := ImpactInputs(Unit, Unit, Unit, Unit)

  /** The registered assets and their PARAM inputs, keyed by asset name. */
  datatype AssetRegister = AssetRegister(
    assets: seq<Asset>,
    likelihoodInputs: map<string, LikelihoodInputs>,
    impactInputs: map<string, ImpactInputs>)

  /** The "Add asset" form: an asset with a non-empty name is appended, and
      neutral inputs are recorded for that name only where none exist yet. */
  function AddAsset(reg: AssetRegister, name: string, category: string, owner: string): (r: AssetRegister)
    ensures name == "" ==> r == reg
    ensures name != "" ==> r.assets == reg.assets + [Asset(name, category, owner)]
    ensures name != "" ==> r.likelihoodInputs.Keys == reg.likelihoodInputs.Keys + {name}
    ensures name != "" ==> r.impactInputs.Keys == reg.impactInputs.Keys + {name}
    ensures forall n :: n in reg.likelihoodInputs ==> r.likelihoodInputs[n] == reg.likelihoodInputs[n]
    ensures forall n :: n in reg.impactInputs ==> r.impactInputs[n] == reg.impactInputs[n]
    ensures name != "" && name !in reg.likelihoodInputs ==> r.likelihoodInputs[name] == UnitLikelihood
    ensures name != "" && name !in reg.impactInputs ==> r.impactInputs[name] == UnitImpact
  {
    if name == "" then reg
    else
      var likelihood := if name in reg.likelihoodInputs then reg.likelihoodInputs
                        else reg.likelihoodInputs[name := UnitLikelihood];
      var impact := if name in reg.impactInputs then reg.impactInputs
                    else reg.impactInputs[name := UnitImpact];
      AssetRegister(reg.assets + [Asset(name, category, owner)], likelihood, impact)
  }

  /** Every registered asset has both kinds of input. */
  ghost predicate InputsComplete(reg: AssetRegister) {
    forall k :: 0 <= k < |reg.assets| ==>
      reg.assets[k].name in reg.likelihoodInputs && reg.assets[k].name in reg.impactInputs
  }

  /** Adding an asset keeps every registered asset supplied with inputs. */
  lemma AddAssetKeepsInputsComplete(reg: AssetRegister, name: string, category: string, owner: string)
    requires InputsComplete(reg)
    ensures InputsComplete(AddAsset(reg, name, category, owner))
  {
  }
}

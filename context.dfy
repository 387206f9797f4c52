/**
 * The knowledge-base text the chat router hands to the language model: one
 * block per vehicle model, one line per current good deal and, when the
 * message named a budget, one line per affordable listing.
 */
module ChatContext {
  import opened Wrappers
  import opened Text
  import opened Schema
  import opened Seqs

  const NoProblems := "None major"
  const AllYears := "All years"
  const NoYearsToAvoid := "None"
  const NoFuelFigure := "N/A"
  /** Rows of the budget section. */
  const BudgetRows := 5

  function Issue(p: Problem): string {
    p.issue
  }

  /**
   * The common-problems text: the issues of the first two problems joined by ", ",
   * or the fallback when the list is missing or that join is empty.
   */
  function ProblemsText(ps: Option<seq<Problem>>): (r: string)
    ensures ps.None? || |ps.value| == 0 ==> r == NoProblems
    ensures ps.Some? && |ps.value| == 1 ==> r == if ps.value[0].issue == "" then NoProblems else ps.value[0].issue
    ensures ps.Some? && |ps.value| >= 2 ==> r == ps.value[0].issue + ", " + ps.value[1].issue
  {
    match ps
    case None => NoProblems
    case Some(list) =>
      var shown := Map(Take(list, 2), Issue);
      var joined := Join(shown, ", ");
      JoinEmpty(shown, ", ");
      assert |list| >= 2 ==> shown == [list[0].issue, list[1].issue];
      if joined == "" then NoProblems else joined
  }

  /** The best-years text: the list joined by ", ", or the fallback when that join is empty. */
  function BestYearsText(ys: Option<seq<string>>): (r: string)
    ensures ys.None? || ys.value == [] || ys.value == [""] ==> r == AllYears
    ensures ys.Some? && ys.value != [] && ys.value != [""] ==> r == Join(ys.value, ", ")
  {
    match ys
    case None => AllYears
    case Some(list) =>
      JoinEmpty(list, ", ");
      var joined := Join(list, ", ");
      if joined == "" then AllYears else joined
  }

  /** The years-to-avoid text: the fallback only for a missing or empty list, otherwise the join. */
  function AvoidYearsText(ys: Option<seq<string>>): (r: string)
    ensures ys.None? || ys.value == [] ==> r == NoYearsToAvoid
    ensures ys.Some? && ys.value != [] ==> r == Join(ys.value, ", ")
  {
    match ys
    case None => NoYearsToAvoid
    case Some(list) => if |list| > 0 then Join(list, ", ") else NoYearsToAvoid
  }

  /**
   * The two list fallbacks test different things: the best-years text falls back on an
   * empty join, the avoid text on an empty list, so a list holding one empty string
   * shows "All years" in one place and nothing in the other.
   */
  lemma FallbacksDiffer()
    ensures BestYearsText(Some([""])) == AllYears
    ensures AvoidYearsText(Some([""])) == ""
  {
  }

  /** The city fuel figure, or the fallback when it is missing or empty. */
  function CityFuelText(f: Option<FuelEfficiency>): (r: string)
    ensures f.None? || f.value.cityKmpl.None? || f.value.cityKmpl.value == "" ==> r == NoFuelFigure
    ensures f.Some? && f.value.cityKmpl.Some? && f.value.cityKmpl.value != "" ==> r == f.value.cityKmpl.value
  {
    if f.Some? && f.value.cityKmpl.Some? && f.value.cityKmpl.value != "" then f.value.cityKmpl.value else NoFuelFigure
  }

  /** The block for one model: name and score, then problems, best years, years to avoid and city fuel figure. */
  function ModelBlock(m: VehicleModel): string {
    "- " + m.baseModel + " (Reliability: " + IntToString(m.reliabilityScore) + "/10)\n"
    + "  Common Problems: " + ProblemsText(m.commonProblems) + "\n"
    + "  Best Years: " + BestYearsText(m.bestYears) + "\n"
    + "  Years to Avoid: " + AvoidYearsText(m.yearsToAvoid) + "\n"
    + "  Fuel Efficiency: " + CityFuelText(m.fuelEfficiency) + " kmpl (city)"
  }

  /** A price in lakhs (units of 100,000) with one decimal: one step of the last digit is 10,000. */
  function Lakhs(price: int): string {
    ToFixed(price, 10000, 1)
  }

  /** A missing location is interpolated as the text "null". */
  function LocationText(loc: Option<string>): string {
    if loc.Some? then loc.value else "null"
  }

  /** A missing evaluation is interpolated as "undefined"; otherwise its first '_' becomes a space. */
  function EvaluationText(e: Option<PriceEvaluation>): (r: string)
    ensures e.None? ==> r == "undefined"
    ensures e.Some? ==> r == ReplaceFirst(EvaluationName(e.value), '_', ' ')
  {
    if e.Some? then ReplaceFirst(EvaluationName(e.value), '_', ' ') else "undefined"
  }

  /** Replacing the first '_' of a text whose first '_' is at `k`. */
  lemma ReplaceAt(s: string, k: nat)
    requires k < |s| && s[k] == '_' && forall i :: 0 <= i < k ==> s[i] != '_'
    ensures ReplaceFirst(s, '_', ' ') == s[..k] + " " + s[k + 1..]
  {
    assert s[k] in s;
  }

  /** A text made of `a`, one '_' and `b`, where `a` has no '_', becomes `a`, a space and `b`. */
  lemma ReplaceJoint(a: string, b: string)
    requires '_' !in a
    ensures ReplaceFirst(a + "_" + b, '_', ' ') == a + " " + b
  {
    var s := a + "_" + b;
    ReplaceAt(s, |a|);
    assert s[..|a|] == a && s[|a| + 1..] == b;
  }

  /** An evaluation stored as `a`, '_', `b` with no other '_' is shown as `a`, a space and `b`. */
  lemma ShownEvaluation(e: PriceEvaluation, a: string, b: string)
    requires EvaluationName(e) == a + "_" + b && '_' !in a && '_' !in b
    ensures EvaluationText(Some(e)) == a + " " + b
    ensures '_' !in EvaluationText(Some(e))
  {
    ReplaceJoint(a, b);
  }

  function DealLine(l: Listing): string {
    "- " + l.model + " (" + IntToString(l.year) + ") - Rs. " + Lakhs(l.price) + " Lakhs - " + LocationText(l.location)
  }

  function BudgetLine(l: Listing): string {
    "- " + l.model + " (" + IntToString(l.year) + ") - Rs. " + Lakhs(l.price) + " Lakhs - " + EvaluationText(l.priceEvaluation)
  }

  /** The three sections as lists of lines; the budget section is absent when nothing fits the budget. */
  datatype Sections = Sections(models: seq<string>, deals: seq<string>, budget: Option<seq<string>>)

  /**
   * One block per model and one line per deal, in the order given; the budget
   * section exactly when there are budget listings, showing only the first five.
   */
  function BuildSections(models: seq<VehicleModel>, deals: seq<Listing>, inBudget: seq<Listing>): (r: Sections)
    ensures |r.models| == |models| && forall i :: 0 <= i < |models| ==> r.models[i] == ModelBlock(models[i])
    ensures |r.deals| == |deals| && forall i :: 0 <= i < |deals| ==> r.deals[i] == DealLine(deals[i])
    ensures r.budget.Some? <==> |inBudget| > 0
    ensures r.budget.Some? ==> |r.budget.value| == (if |inBudget| < BudgetRows then |inBudget| else BudgetRows)
    ensures r.budget.Some? ==> forall i :: 0 <= i < |r.budget.value| ==> r.budget.value[i] == BudgetLine(inBudget[i])
  {
    Sections(
      Map(models, ModelBlock),
      Map(deals, DealLine),
      if |inBudget| > 0 then Some(Map(Take(inBudget, BudgetRows), BudgetLine)) else None)
  }

  const ModelsHeading := "\nAvailable Vehicle Models:\n"
  const DealsHeading := "\n\nCurrent Good Deals:\n"
  const BudgetHeading := "\nCars within mentioned budget:\n"

  /** The context text: the headed model and deal sections, then the budget section or nothing. */
  function Render(s: Sections): string {
    ModelsHeading + Join(s.models, "\n") + DealsHeading + Join(s.deals, "\n") + "\n\n"
    + (if s.budget.Some? then BudgetHeading + Join(s.budget.value, "\n") + "\n" else "")
  }

  /**
   * The rendered text starts with the model heading; without a budget section it ends
   * right after the deal lines and a blank line, with one it ends with that section.
   */
  lemma RenderShape(s: Sections)
    ensures var r := Render(s);
      var head := ModelsHeading + Join(s.models, "\n") + DealsHeading + Join(s.deals, "\n") + "\n\n";
      && |r| >= |head| && r[..|head|] == head
      && (s.budget.None? ==> r == head)
      && (s.budget.Some? ==> r[|head|..] == BudgetHeading + Join(s.budget.value, "\n") + "\n")
  {
  }

  /** The knowledge base the chat turn builds from the store's models, good deals and budget listings. */
  function VehicleContext(models: seq<VehicleModel>, deals: seq<Listing>, inBudget: seq<Listing>): string {
    Render(BuildSections(models, deals, inBudget))
  }
}

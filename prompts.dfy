/** The prompts the four generators send. Each is fixed text around the
    parent's title and description (and, for tasks, the story's acceptance
    criteria); the schema and formatting guidance in the middle of each prompt
    is not part of this model, only its opening sentence, the parent's lines
    and its closing line are. */
module Prompts {
  import opened Wrappers
  import opened Text
  import opened Models
  import opened Runtime

  /** The first sentence of each prompt: the role and what to generate
      (written in pieces, which keeps the solver's work on it small). */
  function Opening(level: Level): string {
    match level
    case Epic =>
      "You are a project management expert. " + "Based on this project description, "
      + "generate as many high-level epics as possible " + "that would be needed to complete this project."
    case Feature =>
      "You are a software architect. " + "Based on this epic, "
      + "generate 2-4 specific features " + "that would be needed to complete it."
    case Story =>
      "You are a product manager. " + "Based on this feature, "
      + "generate 2-3 user stories " + "that would be needed to implement it."
    case Task =>
      "You are a technical lead. " + "Based on this user story, "
      + "generate 3-5 specific development tasks " + "that would be needed to implement it."
  }

  /** The label of the parent's title line: the parent is one level up. */
  function ParentLabel(level: Level): string {
    match level
    case Epic => "Project"
    case Feature => "Epic"
    case Story => "Feature"
    case Task => "User Story"
  }

  const ClosingLine := "Return only the JSON array, no additional text."

  /** The callee named by the `TypeError` when the criteria have no `join`. */
  const CriteriaJoin := "story.acceptanceCriteria?.join"

  /** `story.acceptanceCriteria?.join(', ') || 'N/A'`: a missing or `null`
      value, or a list that joins to the empty text, renders as `N/A`; a list
      is joined with `, `, which throws the conversion `TypeError` when one of
      its elements cannot be turned into text; any other value has no `join`
      method and raises a `TypeError` for that. */
  function CriteriaText(f: Field): (r: Result<string, string>)
    ensures r.Failure? <==> f.Some? && !f.value.JNull? && (f.value.JArray? ==> !Convertible(f.value))
    ensures r.Failure? ==> f.Some? && r.error == if f.value.JArray? then CannotConvert else NotAFunction(CriteriaJoin)
    ensures r.Success? ==> r.value != []
    ensures f.None? || f == Some(JNull) || f == Some(JArray([])) ==> r == Success("N/A")
  {
    match f
    case None => Success("N/A")
    case Some(v) =>
      match v
      case JNull => Success("N/A")
      case JArray(items) =>
        if !Convertible(v) then Failure(CannotConvert)
        else
          var joined := Join(ShowItems(v, items), ", ");
          Success(if joined == [] then "N/A" else joined)
      case _ => Failure(NotAFunction(CriteriaJoin))
  }

  /** `<Label>: <title>`, the parent's title line. */
  function TitleLine(level: Level, title: string): string {
    ParentLabel(level) + ": " + title
  }

  /** The parent's description line. */
  function DescriptionLine(description: string): string {
    "\nDescription: " + description
  }

  /** The story's acceptance criteria line, present in task prompts only. */
  function CriteriaLine(level: Level, criteria: string): string {
    if level == Task then "\nAcceptance Criteria: " + criteria else ""
  }

  /** The prompt for generating children of `parent` at `level`. Rendering the
      parent's title and description throws when either is an object that
      cannot be turned into text; for tasks the criteria come next and can
      throw too. The prompt is built before the generator's `try`, so these
      `TypeError`s escape unclassified. */
  function Prompt(level: Level, parent: ProjectNode): (r: Result<string, string>)
    ensures r.Failure? <==>
      (|| !FieldConvertible(parent.title)
       || !FieldConvertible(parent.description)
       || (level == Task && CriteriaText(parent.acceptanceCriteria).Failure?))
    ensures r.Failure? && !(FieldConvertible(parent.title) && FieldConvertible(parent.description)) ==>
      r.error == CannotConvert
    ensures r.Failure? && FieldConvertible(parent.title) && FieldConvertible(parent.description) ==>
      r == CriteriaText(parent.acceptanceCriteria)
  {
    if !FieldConvertible(parent.title) || !FieldConvertible(parent.description) then Failure(CannotConvert)
    else
      var criteria := if level == Task then CriteriaText(parent.acceptanceCriteria) else Success("");
      if criteria.Failure? then Failure(criteria.error)
      else Success(Opening(level) + "\n\n"
        + (TitleLine(level, ShowField(parent.title)) + DescriptionLine(ShowField(parent.description))
           + CriteriaLine(level, criteria.value))
        + "\n\n" + ClosingLine)
  }

  /** The texts of a list of JSON strings. */
  function Texts(items: seq<Json>): (r: seq<string>)
    requires forall k :: 0 <= k < |items| ==> items[k].JString?
    ensures |r| == |items|
  {
    seq(|items|, k requires 0 <= k < |items| => items[k].s)
  }

  /** A list of strings renders as those strings joined with `, `, or as `N/A`
      when that join is empty (no strings, or a single empty one). */
  lemma CriteriaOfTexts(items: seq<Json>)
    requires forall k :: 0 <= k < |items| ==> items[k].JString?
    ensures var joined := Join(Texts(items), ", ");
      CriteriaText(Some(JArray(items))) == Success(if joined == [] then "N/A" else joined)
  {
    var v := JArray(items);
    assert Convertible(v) by {
      forall k | 0 <= k < |items| ensures Convertible(items[k]) {
        assert items[k].JString?;
      }
    }
    var parts := ShowItems(v, items);
    assert parts == Texts(items);
  }

  /** The layout of a prompt: opening, blank line, parent lines, blank line,
      closing line. */
  lemma PromptLayout(opening: string, titleLine: string, descriptionLine: string, rest: string)
    ensures var r := opening + "\n\n" + (titleLine + descriptionLine + rest) + "\n\n" + ClosingLine;
      && StartsWith(r, opening)
      && EndsWith(r, ClosingLine)
      && Contains(r, titleLine)
      && Contains(r, descriptionLine)
      && Contains(r, rest)
  {
    var lines := titleLine + descriptionLine + rest;
    var a1 := opening + "\n\n";
    var a2 := a1 + lines;
    var a3 := a2 + "\n\n";
    ContainsItself(titleLine);
    ContainsItself(descriptionLine);
    ContainsItself(rest);
    ContainsEitherPart(titleLine, descriptionLine, titleLine);
    ContainsEitherPart(titleLine, descriptionLine, descriptionLine);
    ContainsEitherPart(titleLine + descriptionLine, rest, titleLine);
    ContainsEitherPart(titleLine + descriptionLine, rest, descriptionLine);
    ContainsEitherPart(titleLine + descriptionLine, rest, rest);
    forall w | w == titleLine || w == descriptionLine || w == rest
      ensures Contains(a3 + ClosingLine, w)
    {
      ContainsEitherPart(a1, lines, w);
      ContainsEitherPart(a2, "\n\n", w);
      ContainsEitherPart(a3, ClosingLine, w);
    }
    assert StartsWith(opening, opening) by {
      assert opening[..|opening|] == opening;
    }
    StartsWithExtended(opening, "\n\n", opening);
    StartsWithExtended(a1, lines, opening);
    StartsWithExtended(a2, "\n\n", opening);
    StartsWithExtended(a3, ClosingLine, opening);
    EndsWithSecond(a3, ClosingLine);
  }

  /** A prompt opens with the role sentence, ends with the closing line, and
      carries the parent's title and description as the template renders them. */
  lemma PromptShowsParent(level: Level, parent: ProjectNode)
    requires Prompt(level, parent).Success?
    ensures var r := Prompt(level, parent).value;
      && StartsWith(r, Opening(level))
      && EndsWith(r, ClosingLine)
      && Contains(r, TitleLine(level, ShowField(parent.title)))
      && Contains(r, DescriptionLine(ShowField(parent.description)))
  {
    var criteria := if level == Task then CriteriaText(parent.acceptanceCriteria).value else "";
    PromptLayout(Opening(level), TitleLine(level, ShowField(parent.title)),
      DescriptionLine(ShowField(parent.description)), CriteriaLine(level, criteria));
  }

  /** A task prompt for a story without criteria, with `null` criteria or with
      an empty list carries the line `Acceptance Criteria: N/A`, provided the
      story's title and description can be rendered. */
  lemma TaskPromptWithoutCriteria(parent: ProjectNode)
    requires FieldConvertible(parent.title) && FieldConvertible(parent.description)
    requires parent.acceptanceCriteria.None? || parent.acceptanceCriteria == Some(JNull)
      || parent.acceptanceCriteria == Some(JArray([]))
    ensures Prompt(Task, parent).Success?
    ensures Contains(Prompt(Task, parent).value, CriteriaLine(Task, "N/A"))
  {
    assert CriteriaText(parent.acceptanceCriteria) == Success("N/A");
    PromptLayout(Opening(Task), TitleLine(Task, ShowField(parent.title)),
      DescriptionLine(ShowField(parent.description)), CriteriaLine(Task, "N/A"));
  }
}

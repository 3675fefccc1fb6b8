/** The shared records of lib/types.ts: the suggestion union and the reconciled
    session state, as the regeneration route emits them and the components read
    them. */
module Types {
  import opened Wrappers
  import opened Json

  /** A ranking item the suggestion validator accepts: an object whose
      `entityTitle` and `reason` are strings. The whole object is kept, so any
      other keys the generator added travel with it. */
  predicate IsRankItem(j: Json)
  {
    IsString(Get(j, "entityTitle")) && IsString(Get(j, "reason"))
  }

  type RankItem = j: Json | IsRankItem(j)
    witness JObj(map["entityTitle" := JStr(""), "reason" := JStr("")])

  function EntityTitle(item: RankItem): string
  {
    item.fields["entityTitle"].s
  }

  function Reason(item: RankItem): string
  {
    item.fields["reason"].s
  }

  /** The closed three-variant suggestion union. */
  datatype Suggestion =
    | Question(text: string)
    | Ranking(basis: string, items: seq<RankItem>)
    | NextStep(text: string)

  /** The `type` tag a suggestion carries on the wire. */
  function Tag(s: Suggestion): string
  {
    match s
    case Question(_) => "question"
    case Ranking(_, _) => "ranking"
    case NextStep(_) => "next-step"
  }

  /** The reconciled session state as the components receive it (`RegenerateState`). */
  datatype RegenerateState = RegenerateState(
    sessionSummary: string,
    sessionCategory: string,
    entities: seq<Json>,
    suggestedNotebookTitle: Option<string>,
    suggestions: seq<Suggestion>)
}

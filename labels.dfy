/**
 * The fixed, read-only table from source-file ids to the authority names the
 * results page shows, and the lookup that falls back to the id itself.
 */
module SourceLabels {
  import opened Wrappers
  import opened Json

  const WHO: string := "World Health Organization (WHO)"
  const EFSA: string := "European Food Safety Authority (EFSA)"
  const BMJ: string := "BMJ (British Medical Journal)"

  /** Source-file id to authority name. */
  const Labels: map<string, string> := map[
    "who_fruits_vegetables.txt" := WHO,
    "who_free_sugars.txt" := WHO,
    "who_ultra_processed_foods.txt" := WHO,
    "who_beverages_alcohol.txt" := WHO,
    "efsa_fiber.txt" := EFSA,
    "mediterranean_diet.txt" := BMJ
  ]

  /** `Labels.get(id, id)` for the `source_id` value of one cited source (the
      value is `None` when the entry has no `source_id`). A known id yields its
      authority name; any other hashable value comes back unchanged; a list or
      dictionary cannot be looked up at all. */
  function Label(id: Json): (r: Result<Json, Fault>)
    ensures r.Failure? <==> !Hashable(id)
    ensures r.Success? && r.value != id ==> id.Str? && id.s in Labels && r.value == Str(Labels[id.s])
    ensures id.Str? && id.s !in Labels ==> r == Success(id)
    ensures r.Success? && r.value != id ==> r.value.Str? && r.value.s in {WHO, EFSA, BMJ}
  {
    if !Hashable(id) then Failure(Unhashable(KindOf(id)))
    else if id.Str? && id.s in Labels then Success(Str(Labels[id.s]))
    else Success(id)
  }

  /** The six known ids, and only they, have a label of their own. */
  lemma KnownIds()
    ensures Labels.Keys == {"who_fruits_vegetables.txt", "who_free_sugars.txt",
                            "who_ultra_processed_foods.txt", "who_beverages_alcohol.txt",
                            "efsa_fiber.txt", "mediterranean_diet.txt"}
    ensures Label(Str("who_fruits_vegetables.txt")) == Success(Str(WHO))
    ensures Label(Str("who_free_sugars.txt")) == Success(Str(WHO))
    ensures Label(Str("who_ultra_processed_foods.txt")) == Success(Str(WHO))
    ensures Label(Str("who_beverages_alcohol.txt")) == Success(Str(WHO))
    ensures Label(Str("efsa_fiber.txt")) == Success(Str(EFSA))
    ensures Label(Str("mediterranean_diet.txt")) == Success(Str(BMJ))
  {
  }

  /** An id outside the table, a number or `None` is shown as it is. */
  lemma UnknownIdsPassThrough(id: Json)
    requires Hashable(id)
    requires !id.Str? || id.s !in Labels
    ensures Label(id) == Success(id)
  {
  }
}

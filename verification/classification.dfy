/** `Classification`, the medium facet (HarvardArtAPP/Models/Classification.swift). */
module ClassificationModel {
  import opened Wrappers
  import opened Text

  datatype Classification = Classification(id: int, name: Option<string>, objectcount: Option<int>)

  const UnknownMediumText := "Unknown Medium"

  /** `displayName`: the name, or "Unknown Medium" when there is none. */
  function DisplayName(c: Classification): (r: string)
    ensures c.name.Some? ==> r == c.name.value
    ensures c.name.None? ==> r == UnknownMediumText
  {
    c.name.GetOr(UnknownMediumText)
  }

  /** `displayCount`: "<n> objects" when the count is known, otherwise empty. */
  function DisplayCount(c: Classification): (r: string)
    ensures c.objectcount.None? <==> r == ""
    ensures c.objectcount.Some? ==> r == IntToDecimal(c.objectcount.value) + " objects"
  {
    if c.objectcount.Some? then IntToDecimal(c.objectcount.value) + " objects" else ""
  }

  /** Different known counts are displayed differently. */
  lemma DisplayCountInjective(c: Classification, d: Classification)
    requires c.objectcount.Some? && d.objectcount.Some?
    requires DisplayCount(c) == DisplayCount(d)
    ensures c.objectcount == d.objectcount
  {
    var x, y := IntToDecimal(c.objectcount.value), IntToDecimal(d.objectcount.value);
    assert |x| == |y| && x == DisplayCount(c)[..|x|] && y == DisplayCount(d)[..|y|];
    IntToDecimalInjective(c.objectcount.value, d.objectcount.value);
  }

  datatype Field = Id | Name | Objectcount

  /** `CodingKeys`: `id` is decoded from "classificationid". */
  function JsonKey(f: Field): (k: string)
    ensures f == Id <==> k == "classificationid"
  {
    match f
    case Id => "classificationid"
    case Name => "name"
    case Objectcount => "objectcount"
  }
}

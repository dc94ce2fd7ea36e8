/**
 * `Person` (HarvardArtAPP/Models/Person.swift). The struct there declares only `name`,
 * `role` and `displayname`, but other files construct and read `id`, `objectcount`,
 * `birthdate`, `deathdate` and `birthplace`; the model carries all eight, each optional.
 */
module PersonModel {
  import opened Wrappers

  datatype Person = Person(
    id: Option<int>,
    name: Option<string>,
    role: Option<string>,
    displayname: Option<string>,
    objectcount: Option<int>,
    birthdate: Option<string>,
    deathdate: Option<string>,
    birthplace: Option<string>)

  /** `effectiveName`: a non-empty display name, otherwise the plain name (possibly nil). */
  function EffectiveName(p: Person): (r: Option<string>)
    ensures p.displayname.Some? && p.displayname.value != "" ==> r == p.displayname
    ensures p.displayname.None? || p.displayname.value == "" ==> r == p.name
    ensures r.None? <==> (p.displayname.None? || p.displayname.value == "") && p.name.None?
    ensures r == Some("") ==> p.name == Some("")
  {
    if p.displayname.Some? && p.displayname.value != "" then p.displayname else p.name
  }
}

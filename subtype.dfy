/**
 * The subtype label shown for a resource (`getSubtype`): natural spaces
 * use one of their two subtype fields, localities are a city or a town by
 * name, and every other collection uses its own subtype name.
 */
module Subtype {
  import opened Common

  /** The fields of a resource record that the label depends on. */
  datatype Item = Item(
    coleccion: string,
    nombre: string,
    espacioNatural: Option<string>,
    playasPantanosRios: Option<string>,
    subtipo: Option<string>)

  const Cities: seq<string> := ["Bilbao", "Vitoria-Gasteiz", "San Sebastián"]

  /** `getSubtype(item)`. */
  function SubtypeOf(item: Item): (sub: string)
    ensures Lower(item.coleccion) == "natural" ==>
      sub == (if Truthy(item.espacioNatural) then item.espacioNatural.value
                else if Truthy(item.playasPantanosRios) then item.playasPantanosRios.value
                else "")
    ensures Lower(item.coleccion) == "locality" ==>
      (sub == "Ciudad" <==> Trim(item.nombre) in Cities) && (sub == "Ciudad" || sub == "Pueblo")
    ensures Lower(item.coleccion) != "natural" && Lower(item.coleccion) != "locality" ==>
      sub == (if Truthy(item.subtipo) then item.subtipo.value else "")
  {
    var c := Lower(item.coleccion);
    if c == "natural" then
      OrElse(OrElse(item.espacioNatural, item.playasPantanosRios), Some("")).value
    else if c == "locality" then
      if Trim(item.nombre) in Cities then "Ciudad" else "Pueblo"
    else
      OrElse(item.subtipo, Some("")).value
  }

  /** The collection comparison ignores letter case. */
  lemma CaseInsensitive(item: Item)
    ensures SubtypeOf(item.(coleccion := Lower(item.coleccion))) == SubtypeOf(item)
  {
    LowerIdempotent(item.coleccion);
  }

  /** Only the locality rule can yield `Ciudad` or `Pueblo` without the record saying so. */
  lemma LabelComesFromRecord(item: Item)
    ensures var sub := SubtypeOf(item);
      sub == "" || sub == "Ciudad" || sub == "Pueblo"
      || Some(sub) == item.espacioNatural || Some(sub) == item.playasPantanosRios
      || Some(sub) == item.subtipo
  {
  }

  /** Surrounding white space in a locality's name does not change its sub. */
  lemma LocalityIgnoresPadding(item: Item, name: string)
    requires Lower(item.coleccion) == "locality" && Trim(name) == Trim(item.nombre)
    ensures SubtypeOf(item.(nombre := name)) == SubtypeOf(item)
  {
  }
}

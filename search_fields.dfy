/**
 * The three-field search form (`SearchData`) that both search pages
 * (src/pages/SearchUser.tsx and src/pages/SearchAdmin.tsx) keep and update the
 * same way.
 */
module SearchFields {

  datatype SearchData = SearchData(sip: string, ddr: string, lp: string)

  /** The `name` attributes of the three inputs. */
  datatype SearchField = Sip | Ddr | Lp

  const EmptySearch := SearchData("", "", "")

  function FieldValue(q: SearchData, f: SearchField): string {
    match f
    case Sip => q.sip
    case Ddr => q.ddr
    case Lp => q.lp
  }

  /** `{ ...prev, [name]: value }`: the named field changes, the other two do not. */
  function SetField(q: SearchData, f: SearchField, value: string): (r: SearchData)
    ensures FieldValue(r, f) == value
    ensures forall g :: g != f ==> FieldValue(r, g) == FieldValue(q, g)
  {
    match f
    case Sip => q.(sip := value)
    case Ddr => q.(ddr := value)
    case Lp => q.(lp := value)
  }
}

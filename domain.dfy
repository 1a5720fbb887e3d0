/** The records the pages share. `Material` and `Quote` belong to the inventory and quotes
    stores, which are not part of this model; only the fields the pages read are kept.
    Money, quantities and coordinates are exact reals. */
module Domain {

  datatype Option<T> = None | Some(value: T)

  datatype Result<T, E> = Ok(value: T) | Err(error: E)

  /** What `parseFloat` returns: a number, or NaN for text that does not start with one. */
  datatype ParsedNumber = Num(value: real) | NaN

  /** `parseFloat(text) || 0`: NaN (and zero) become 0. */
  function NumberOrZero(p: ParsedNumber): (r: real)
    ensures p.Num? ==> r == p.value
    ensures p.NaN? ==> r == 0.0
  {
    match p
    case Num(v) => v
    case NaN => 0.0
  }

  /** A catalog entry: `unit` is the free text the inventory form stores ("metros", "kg", ...). */
  datatype Material = Material(id: string, name: string, unitCost: real, quantity: real, unit: string)

  /** A line of a stored quote: a copy of the material's name, unit and cost at the time. */
  datatype QuoteLineItem = QuoteLineItem(
    materialName: string, quantity: real, unit: string, unitCost: real, totalCost: real)

  datatype Quote = Quote(
    id: string,
    clientName: string,
    projectDescription: string,
    createdDate: string,
    laborCost: real,
    materialsCost: real,
    totalCost: real,
    items: seq<QuoteLineItem>)

  /** `materials.find(m => m.id === id)`: the first material with that id, if any. */
  function FindMaterial(catalog: seq<Material>, id: string): (r: Option<Material>)
    ensures r.None? <==> forall i :: 0 <= i < |catalog| ==> catalog[i].id != id
    ensures r.Some? ==> r.value in catalog && r.value.id == id
    ensures catalog != [] && catalog[0].id == id ==> r == Some(catalog[0])
  {
    if catalog == [] then None
    else if catalog[0].id == id then Some(catalog[0])
    else FindMaterial(catalog[1..], id)
  }

  /** `find` returns the first match wherever it is: if entry k has the id and no entry
      before it does, the result is entry k. */
  lemma {:induction false} FindMaterialIsFirst(catalog: seq<Material>, id: string, k: nat)
    requires k < |catalog| && catalog[k].id == id
    requires forall j :: 0 <= j < k ==> catalog[j].id != id
    ensures FindMaterial(catalog, id) == Some(catalog[k])
    decreases k
  {
    if k > 0 {
      FindMaterialIsFirst(catalog[1..], id, k - 1);
    }
  }
}

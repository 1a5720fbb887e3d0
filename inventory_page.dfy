/** The inventory page's form: the text fields being edited, the id of the material being
    edited (if any), and the calls the page makes into the inventory store. The store itself
    is not part of this model; the page is modelled by the calls it makes. */
module InventoryPage {
  import opened Domain
  import opened Text

  /** The form's four fields, as the text the inputs hold. */
  datatype FormData = FormData(name: string, unitCost: string, quantity: string, unit: string)

  /** The empty form the page starts from and returns to: no text, unit "metros". */
  const DefaultForm := FormData("", "", "", "metros")

  /** What the page hands the store for a new or changed material. */
  datatype MaterialFields = MaterialFields(name: string, unitCost: ParsedNumber, quantity: ParsedNumber, unit: string)

  /** A call the page makes into the inventory store. */
  datatype StoreCall =
    | AddMaterial(fields: MaterialFields)
    | UpdateMaterial(id: string, fields: MaterialFields)
    | DeleteMaterial(id: string)

  /** Why a submit was refused: a field left empty, or a number that is not above zero. */
  datatype Rejection = MissingFields | NotPositive

  /** `x <= 0` on a parsed number: false for NaN, as every comparison with NaN is. */
  predicate AtMostZero(p: ParsedNumber)
    ensures p.NaN? ==> !AtMostZero(p)
    ensures p.Num? ==> (AtMostZero(p) <==> p.value <= 0.0)
  {
    p.Num? && p.value <= 0.0
  }

  /** The checks `handleSubmit` makes before it touches the store, in its order: first that
      the name is not blank and the numeric fields are not empty, then that both parsed
      numbers are above zero. `parse` stands for `parseFloat`. */
  function Validate(form: FormData, parse: string -> ParsedNumber): (r: Result<MaterialFields, Rejection>)
    ensures r == Err(MissingFields) <==>
              AllWhitespace(form.name) || form.unitCost == [] || form.quantity == []
    ensures r == Err(NotPositive) <==>
              !AllWhitespace(form.name) && form.unitCost != [] && form.quantity != []
              && (AtMostZero(parse(form.unitCost)) || AtMostZero(parse(form.quantity)))
    ensures r.Ok? ==> r.value.name != [] && r.value.name == Trim(form.name)
                      && !IsWhitespace(r.value.name[0]) && !IsWhitespace(r.value.name[|r.value.name| - 1])
    ensures r.Ok? ==> r.value.unitCost == parse(form.unitCost) && r.value.quantity == parse(form.quantity)
                      && r.value.unit == form.unit
    ensures r.Ok? ==> !AtMostZero(r.value.unitCost) && !AtMostZero(r.value.quantity)
  {
    var name := Trim(form.name);
    TrimEmptyIffBlank(form.name);
    if name == [] || form.unitCost == [] || form.quantity == [] then
      Err(MissingFields)
    else
      var unitCost := parse(form.unitCost);
      var quantity := parse(form.quantity);
      if AtMostZero(unitCost) || AtMostZero(quantity) then Err(NotPositive)
      else Ok(MaterialFields(name, unitCost, quantity, form.unit))
  }

  /** `if (isEditing)`: the form is in edit mode when the id is present and not the empty
      string, since JavaScript treats "" as false. */
  predicate EditMode(isEditing: Option<string>)
    ensures isEditing.None? ==> !EditMode(isEditing)
    ensures isEditing == Some("") ==> !EditMode(isEditing) && DeleteButtonDisabled(isEditing)
    ensures EditMode(isEditing) ==> DeleteButtonDisabled(isEditing)
  {
    isEditing.Some? && isEditing.value != ""
  }

  /** The edit button of material `id` is disabled while another material is being edited. */
  predicate EditButtonDisabled(isEditing: Option<string>, id: string)
    ensures isEditing.None? ==> !EditButtonDisabled(isEditing, id)
    ensures isEditing == Some(id) ==> !EditButtonDisabled(isEditing, id)
    ensures isEditing.Some? && isEditing.value != id ==> EditButtonDisabled(isEditing, id)
  {
    isEditing.Some? && isEditing.value != id
  }

  /** Every delete button is disabled while any material is being edited. */
  predicate DeleteButtonDisabled(isEditing: Option<string>)
    ensures isEditing.None? ==> !DeleteButtonDisabled(isEditing)
    ensures isEditing.Some? ==> DeleteButtonDisabled(isEditing)
  {
    isEditing.Some?
  }

  /** The form `handleEdit` loads from a material: its name and unit as they are, and its
      numbers written out by `toString` (the parameter `numberText`). */
  function EditForm(m: Material, numberText: real -> string): (r: FormData)
    ensures r.name == m.name && r.unit == m.unit
    ensures r.unitCost == numberText(m.unitCost) && r.quantity == numberText(m.quantity)
  {
    FormData(m.name, numberText(m.unitCost), numberText(m.quantity), m.unit)
  }

  /** Loading a material into the form and submitting it unchanged hands the store the
      material's own fields back, provided its name is not blank, its numbers are above zero,
      and reading a written-out number gives the same number. */
  lemma EditThenValidate(m: Material, numberText: real -> string, parse: string -> ParsedNumber)
    requires m.name != [] && !IsWhitespace(m.name[0]) && !IsWhitespace(m.name[|m.name| - 1])
    requires m.unitCost > 0.0 && m.quantity > 0.0
    requires numberText(m.unitCost) != [] && parse(numberText(m.unitCost)) == Num(m.unitCost)
    requires numberText(m.quantity) != [] && parse(numberText(m.quantity)) == Num(m.quantity)
    ensures Validate(EditForm(m, numberText), parse)
            == Ok(MaterialFields(m.name, Num(m.unitCost), Num(m.quantity), m.unit))
  {
    TrimOfTrimmed(m.name);
    TrimEmptyIffBlank(m.name);
  }

  /** While a material is being edited, every delete button is disabled and the only edit
      button enabled is that material's own. With nothing being edited, all are enabled. */
  lemma ButtonRules(isEditing: Option<string>, catalog: seq<Material>)
    ensures DeleteButtonDisabled(isEditing) <==> isEditing.Some?
    ensures isEditing.None? ==>
              forall i :: 0 <= i < |catalog| ==> !EditButtonDisabled(isEditing, catalog[i].id)
    ensures isEditing.Some? ==>
              forall i :: 0 <= i < |catalog| ==>
                (!EditButtonDisabled(isEditing, catalog[i].id) <==> catalog[i].id == isEditing.value)
  {
  }

  /** With distinct ids, at most one material's edit button is enabled during an edit. */
  lemma AtMostOneEditable(isEditing: Option<string>, catalog: seq<Material>, i: int, j: int)
    requires forall a, b :: 0 <= a < b < |catalog| ==> catalog[a].id != catalog[b].id
    requires isEditing.Some?
    requires 0 <= i < |catalog| && 0 <= j < |catalog|
    requires !EditButtonDisabled(isEditing, catalog[i].id) && !EditButtonDisabled(isEditing, catalog[j].id)
    ensures i == j
  {
  }

  /** The page's state: the form, the id being edited, and the store calls made so far. */
  class InventoryForm {
    var formData: FormData
    var isEditing: Option<string>
    var storeCalls: seq<StoreCall>

    constructor ()
      ensures formData == DefaultForm && isEditing == None && storeCalls == []
    {
      formData := DefaultForm;
      isEditing := None;
      storeCalls := [];
    }

    /** `handleSubmit`: refuse the form and change nothing, or hand the fields to the store
        (as an update of the edited id in edit mode, as a new material otherwise), leave
        edit mode, and clear the form. */
    method HandleSubmit(parse: string -> ParsedNumber) returns (result: Result<MaterialFields, Rejection>)
      modifies this
      ensures result == Validate(old(formData), parse)
      ensures result.Err? ==>
                formData == old(formData) && isEditing == old(isEditing) && storeCalls == old(storeCalls)
      ensures result.Ok? && EditMode(old(isEditing)) ==>
                storeCalls == old(storeCalls) + [UpdateMaterial(old(isEditing).value, result.value)]
                && isEditing == None && formData == DefaultForm
      ensures result.Ok? && !EditMode(old(isEditing)) ==>
                storeCalls == old(storeCalls) + [AddMaterial(result.value)]
                && isEditing == old(isEditing) && formData == DefaultForm
    {
      result := Validate(formData, parse);
      if result.Err? {
        return;
      }
      if EditMode(isEditing) {
        storeCalls := storeCalls + [UpdateMaterial(isEditing.value, result.value)];
        isEditing := None;
      } else {
        storeCalls := storeCalls + [AddMaterial(result.value)];
      }
      formData := DefaultForm;
    }

    /** `handleEdit`: load the material into the form and remember its id. */
    method HandleEdit(m: Material, numberText: real -> string)
      modifies this
      ensures formData == EditForm(m, numberText) && isEditing == Some(m.id)
      ensures storeCalls == old(storeCalls)
    {
      formData := EditForm(m, numberText);
      isEditing := Some(m.id);
    }

    /** `cancelEdit`: leave edit mode and clear the form, without touching the store. */
    method CancelEdit()
      modifies this
      ensures isEditing == None && formData == DefaultForm
      ensures storeCalls == old(storeCalls)
    {
      isEditing := None;
      formData := DefaultForm;
    }

    /** `handleDelete`: ask the user (their answer is `confirmed`) and delete only on yes. */
    method HandleDelete(id: string, confirmed: bool)
      modifies this
      ensures storeCalls == old(storeCalls) + (if confirmed then [DeleteMaterial(id)] else [])
      ensures formData == old(formData) && isEditing == old(isEditing)
    {
      if confirmed {
        storeCalls := storeCalls + [DeleteMaterial(id)];
      }
    }
  }
}

/** The product editor of frontend/src/components/ProductForm.tsx: its
    initial data, the category checkboxes and the submit state. The
    `onSubmit` callback is an input: success, or the error it threw. */
module ProductForm {
  import opened Common
  import opened Types

  /** `{ id }`, the reference a product payload keeps to a category. */
  datatype CategoryRef = CategoryRef(id: int)

  datatype FormData = FormData(name: string, description: string, price: int, imgUrl: string, categories: seq<CategoryRef>)

  const SaveError: string := "Erro ao salvar produto"

  /** The fields of the product being edited, or the empty form. A missing
      text field is '' and a missing price is 0, which a present product's own
      empty or zero values agree with. */
  function InitialFormData(product: Option<Product>): (f: FormData)
    ensures product.None? ==> f == FormData("", "", 0, "", [])
    ensures product.Some? ==>
      f.name == product.value.name && f.description == product.value.description &&
      f.price == product.value.price && f.imgUrl == product.value.imgUrl
    ensures product.Some? ==> |f.categories| == |product.value.categories|
    ensures product.Some? ==>
      forall i :: 0 <= i < |f.categories| ==> f.categories[i].id == product.value.categories[i].id
  {
    match product
    case None => FormData("", "", 0, "", [])
    case Some(p) =>
      FormData(p.name, p.description, p.price, p.imgUrl,
               seq(|p.categories|, i requires 0 <= i < |p.categories| => CategoryRef(p.categories[i].id)))
  }

  /** The checkbox of a category is ticked when some entry has its id. */
  function IsChecked(form: FormData, categoryId: int): (r: bool)
    ensures r <==> categoryId in seq(|form.categories|, i requires 0 <= i < |form.categories| => form.categories[i].id)
  {
    var ids := seq(|form.categories|, i requires 0 <= i < |form.categories| => form.categories[i].id);
    assert forall i :: 0 <= i < |form.categories| ==> ids[i] == form.categories[i].id;
    exists i :: 0 <= i < |form.categories| && form.categories[i].id == categoryId
  }

  /** handleCategoryChange: ticking appends `{id}` without checking for a
      duplicate; unticking removes every entry with that id. Only the
      categories change. */
  function CategoryChange(form: FormData, categoryId: int, checked: bool): (r: FormData)
    ensures r.name == form.name && r.description == form.description
    ensures r.price == form.price && r.imgUrl == form.imgUrl
    ensures IsChecked(r, categoryId) <==> checked
    ensures checked ==> r.categories == form.categories + [CategoryRef(categoryId)]
  {
    if checked then
      var r := form.(categories := form.categories + [CategoryRef(categoryId)]);
      assert r.categories[|form.categories|].id == categoryId;
      r
    else
      var keep := (c: CategoryRef) => c.id != categoryId;
      FilterMembers(form.categories, keep);
      form.(categories := Filter(form.categories, keep))
  }

  /** Ticking an already ticked category adds a second entry for it. */
  lemma TickTwiceDuplicates(form: FormData, categoryId: int)
    ensures |CategoryChange(CategoryChange(form, categoryId, true), categoryId, true).categories|
      == |form.categories| + 2
  {
  }

  /** Unticking leaves every other category's checkbox as it was. */
  lemma UntickKeepsOthers(form: FormData, categoryId: int, other: int)
    requires other != categoryId
    ensures IsChecked(CategoryChange(form, categoryId, false), other) <==> IsChecked(form, other)
  {
    var keep := (c: CategoryRef) => c.id != categoryId;
    FilterMembers(form.categories, keep);
    var r := CategoryChange(form, categoryId, false);
    if IsChecked(form, other) {
      var i :| 0 <= i < |form.categories| && form.categories[i].id == other;
      var j :| 0 <= j < |r.categories| && r.categories[j] == form.categories[i];
    }
    if IsChecked(r, other) {
      var j :| 0 <= j < |r.categories| && r.categories[j].id == other;
      var i :| 0 <= i < |form.categories| && form.categories[i] == r.categories[j];
    }
  }

  /** The submit state of the form. */
  class FormState {
    var loading: bool
    var error: string

    constructor ()
      ensures !loading && error == ""
    {
      loading := false;
      error := "";
    }

    /** handleSubmit: clears the error, then sets it if the callback failed;
        `loading` ends false either way. */
    method HandleSubmit(outcome: Result<(), string>)
      modifies this
      ensures !loading
      ensures outcome.Ok? ==> error == ""
      ensures outcome.Err? ==> error == SaveError
    {
      loading := true;
      error := "";
      if outcome.Err? {
        error := SaveError;
      }
      loading := false;
    }
  }
}

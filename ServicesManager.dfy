/** The admin editor of the company's services: a form (`formData`), the
    service being edited (`editingService`, null when adding) and the
    dialog's open flag. Submitting dispatches to the store's `updateService`
    or `addService`, then resets all three. */
module ServicesManager {
  import opened Wrappers
  import opened Records
  import opened LocalStorage
  import opened CompanyContext
  import Lists

  // ---------------------------------------------------------------------
  // Icons
  // ---------------------------------------------------------------------

  datatype Icon = Code | Smartphone | Users | Cloud | PenTool | ShoppingCart | TrendingUp | Wrench

  /** An entry of `iconOptions`: the stored value, the caption of the select
      option, and the icon drawn. */
  datatype IconOption = IconOption(value: string, caption: string, icon: Icon)

  const IconOptions: seq<IconOption> := [
    IconOption("Code", "Código", Code),
    IconOption("Smartphone", "Smartphone", Smartphone),
    IconOption("Users", "Usuarios", Users),
    IconOption("Cloud", "Nube", Cloud),
    IconOption("PenTool", "Diseño UI/UX", PenTool),
    IconOption("ShoppingCart", "E-commerce", ShoppingCart),
    IconOption("TrendingUp", "SEO", TrendingUp),
    IconOption("Wrench", "Mantenimiento", Wrench)
  ]

  /** `options.find(opt => opt.value === value)`: the first option with that
      value, if any. */
  function FindOption(options: seq<IconOption>, value: string): (r: Option<IconOption>)
    ensures r.None? <==> forall i :: 0 <= i < |options| ==> options[i].value != value
    ensures r.Some? ==> exists i :: 0 <= i < |options| && options[i] == r.value
                          && r.value.value == value
                          && forall j :: 0 <= j < i ==> options[j].value != value
  {
    if options == [] then None
    else if options[0].value == value then Some(options[0])
    else
      var r := FindOption(options[1..], value);
      assert r.Some? ==> exists i :: 0 <= i < |options| - 1 && options[1..][i] == r.value
                          && r.value.value == value
                          && forall j :: 0 <= j < i ==> options[1..][j].value != value;
      r
  }

  /** The icon a service card draws: `find(...)?.icon || Code`. */
  function IconFor(value: string): Icon
  {
    match FindOption(IconOptions, value)
    case Some(o) => o.icon
    case None => Code
  }

  /** The eight option values are pairwise different. */
  ghost predicate DistinctValues(options: seq<IconOption>)
  {
    forall a, b :: 0 <= a < b < |options| ==> options[a].value != options[b].value
  }

  /** With distinct values, looking up an option's own value finds it. */
  lemma {:induction false} FindOwnValue(options: seq<IconOption>, i: nat)
    requires i < |options| && DistinctValues(options)
    ensures FindOption(options, options[i].value) == Some(options[i])
  {
    if i > 0 {
      assert options[0].value != options[i].value;
      assert options[1..][i - 1] == options[i];
      FindOwnValue(options[1..], i - 1);
    }
  }

  /** A value that is not among the eight options falls back to `Code`;
      each of the eight values selects its own icon. */
  lemma IconLookup(value: string)
    ensures (forall i :: 0 <= i < |IconOptions| ==> IconOptions[i].value != value) ==> IconFor(value) == Code
    ensures forall i :: 0 <= i < |IconOptions| ==> IconFor(IconOptions[i].value) == IconOptions[i].icon
  {
    assert DistinctValues(IconOptions);
    forall i | 0 <= i < |IconOptions|
      ensures IconFor(IconOptions[i].value) == IconOptions[i].icon
    {
      FindOwnValue(IconOptions, i);
    }
  }

  // ---------------------------------------------------------------------
  // The form
  // ---------------------------------------------------------------------

  /** The form after `resetForm` and on first render. */
  const EmptyForm: ServiceForm := ServiceForm("", "", "Code", "")

  /** The `name` attribute of the form's inputs. */
  datatype Field = TitleField | DescriptionField | IconField | PriceField

  function Get(f: ServiceForm, k: Field): string
  {
    match k
    case TitleField => f.title
    case DescriptionField => f.description
    case IconField => f.icon
    case PriceField => f.price
  }

  /** `{ ...prev, [name]: value }`: the named field takes the value and the
      others keep theirs. */
  function WithField(f: ServiceForm, k: Field, value: string): (r: ServiceForm)
    ensures Get(r, k) == value
    ensures forall k' :: k' != k ==> Get(r, k') == Get(f, k')
  {
    match k
    case TitleField => f.(title := value)
    case DescriptionField => f.(description := value)
    case IconField => f.(icon := value)
    case PriceField => f.(price := value)
  }

  /** The form `handleEdit(service)` fills in: the service without its id. */
  function FormOf(s: Service): (f: ServiceForm)
    ensures NewService(f, s.id) == s
  {
    ServiceForm(s.title, s.description, s.icon, s.price)
  }

  /** The services list after submitting `form`: merged into the entries
      with the edited service's id when editing (no entry added), appended
      with the fresh id `now` when adding (all entries before unchanged). */
  function Submitted(xs: seq<Service>, editing: Option<Service>, form: ServiceForm, now: Id): (r: seq<Service>)
    ensures editing.Some? ==> r == ServicesUpdated(xs, editing.value.id, ServiceFormPatch(form)) && |r| == |xs|
    ensures editing.None? ==> |r| == |xs| + 1 && r[..|xs|] == xs && r[|xs|] == NewService(form, now)
  {
    match editing
    case Some(s) => ServicesUpdated(xs, s.id, ServiceFormPatch(form))
    case None => xs + [NewService(form, now)]
  }

  /** Editing a service and submitting the form untouched leaves the list as
      it was, provided ids are distinct. */
  lemma EditUntouchedIsNoOp(xs: seq<Service>, i: nat)
    requires i < |xs| && Lists.DistinctKeys(xs, ServiceId)
    ensures Submitted(xs, Some(xs[i]), FormOf(xs[i]), 0) == xs
  {
    var s := xs[i];
    ServicesUpdatedSpec(xs, s.id, ServiceFormPatch(FormOf(s)));
    var r := ServicesUpdated(xs, s.id, ServiceFormPatch(FormOf(s)));
    assert forall j :: 0 <= j < |xs| && ServiceId(xs[j]) == ServiceId(xs[i]) ==> j == i;
    ServiceFormPatchFields(s, FormOf(s));
    assert forall j :: 0 <= j < |xs| ==> r[j] == xs[j];
  }

  /** The component's three state cells and the handlers that change them. */
  class Editor {
    const store: CompanyStore
    var formData: ServiceForm
    var editing: Option<Service>
    var isModalOpen: bool

    constructor (store: CompanyStore)
      ensures this.store == store
      ensures formData == EmptyForm && editing == None && !isModalOpen
    {
      this.store := store;
      formData := EmptyForm;
      editing := None;
      isModalOpen := false;
    }

    /** The "Agregar Servicio" button: open the dialog, keep the form. */
    method OpenForAdd()
      modifies this
      ensures isModalOpen
      ensures formData == old(formData) && editing == old(editing)
    {
      isModalOpen := true;
    }

    /** `handleEdit(service)`. */
    method HandleEdit(s: Service)
      modifies this
      ensures editing == Some(s) && formData == FormOf(s) && isModalOpen
    {
      editing := Some(s);
      formData := FormOf(s);
      isModalOpen := true;
    }

    /** `handleChange(e)` for the input named `k`. */
    method HandleChange(k: Field, value: string)
      modifies this
      ensures formData == WithField(old(formData), k, value)
      ensures editing == old(editing) && isModalOpen == old(isModalOpen)
    {
      formData := WithField(formData, k, value);
    }

    /** `resetForm()`: also what closing the dialog does. */
    method ResetForm()
      modifies this
      ensures formData == EmptyForm && editing == None && !isModalOpen
    {
      formData := EmptyForm;
      editing := None;
      isModalOpen := false;
    }

    /** `handleSubmit(e)`: update the edited service or add a new one with
        the id `now` (`Date.now()`), then reset the form. */
    method HandleSubmit(now: Id)
      requires store.Valid()
      modifies this, store, store.storage
      ensures store.Valid()
      ensures store.profile == old(store.profile).(services := Submitted(old(store.profile.services), old(editing), old(formData), now))
      ensures store.applications == old(store.applications) && store.internships == old(store.internships)
      ensures store.storage.entries == old(store.storage.entries)[ProfileKey := ProfileSnap(store.profile)]
      ensures formData == EmptyForm && editing == None && !isModalOpen
    {
      if editing.Some? {
        store.UpdateService(editing.value.id, ServiceFormPatch(formData));
      } else {
        store.AddService(formData, now);
      }
      ResetForm();
    }

    /** `handleDelete(id)`: the form is left as it is. */
    method HandleDelete(id: Id)
      requires store.Valid()
      modifies store, store.storage
      ensures store.Valid()
      ensures store.profile == old(store.profile).(services := ServicesRemoved(old(store.profile.services), id))
      ensures store.applications == old(store.applications) && store.internships == old(store.internships)
      ensures store.storage.entries == old(store.storage.entries)[ProfileKey := ProfileSnap(store.profile)]
    {
      store.DeleteService(id);
    }
  }
}

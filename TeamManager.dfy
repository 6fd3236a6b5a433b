/** The admin editor of the team roster: a form (`formData`), the member
    being edited (`editingMember`, null when adding) and the dialog's open
    flag. Submitting dispatches to the store's `updateTeamMember` or
    `addTeamMember`, then resets all three. */
module TeamManager {
  import opened Wrappers
  import opened Records
  import opened LocalStorage
  import opened CompanyContext
  import Lists

  /** The form after `resetForm` and on first render. */
  const EmptyForm: TeamForm := TeamForm("", "", "")

  /** The `name` attribute of the form's inputs. */
  datatype Field = NameField | PositionField | ImageField

  function Get(f: TeamForm, k: Field): string
  {
    match k
    case NameField => f.name
    case PositionField => f.position
    case ImageField => f.image
  }

  /** `{ ...prev, [name]: value }`: the named field takes the value and the
      others keep theirs. */
  function WithField(f: TeamForm, k: Field, value: string): (r: TeamForm)
    ensures Get(r, k) == value
    ensures forall k' :: k' != k ==> Get(r, k') == Get(f, k')
  {
    match k
    case NameField => f.(name := value)
    case PositionField => f.(position := value)
    case ImageField => f.(image := value)
  }

  /** The form `handleEdit(member)` fills in: the member without its id. */
  function FormOf(m: TeamMember): (f: TeamForm)
    ensures NewMember(f, m.id) == m
  {
    TeamForm(m.name, m.position, m.image)
  }

  /** The team list after submitting `form`: merged into the entries with
      the edited member's id when editing (no entry added), appended with
      the fresh id `now` when adding (all entries before unchanged). */
  function Submitted(xs: seq<TeamMember>, editing: Option<TeamMember>, form: TeamForm, now: Id): (r: seq<TeamMember>)
    ensures editing.Some? ==> r == TeamUpdated(xs, editing.value.id, TeamFormPatch(form)) && |r| == |xs|
    ensures editing.None? ==> |r| == |xs| + 1 && r[..|xs|] == xs && r[|xs|] == NewMember(form, now)
  {
    match editing
    case Some(m) => TeamUpdated(xs, m.id, TeamFormPatch(form))
    case None => xs + [NewMember(form, now)]
  }

  /** Editing a member changes, at most, the entries with its id and keeps
      every id, so the roster keeps distinct ids. */
  lemma EditKeepsIds(xs: seq<TeamMember>, m: TeamMember, form: TeamForm)
    ensures forall i :: 0 <= i < |xs| ==> Submitted(xs, Some(m), form, 0)[i].id == xs[i].id
    ensures forall i :: 0 <= i < |xs| && xs[i].id != m.id ==> Submitted(xs, Some(m), form, 0)[i] == xs[i]
    ensures Lists.DistinctKeys(xs, MemberId) ==> Lists.DistinctKeys(Submitted(xs, Some(m), form, 0), MemberId)
  {
    TeamUpdatedSpec(xs, m.id, TeamFormPatch(form));
  }

  /** The component's three state cells and the handlers that change them. */
  class Editor {
    const store: CompanyStore
    var formData: TeamForm
    var editing: Option<TeamMember>
    var isModalOpen: bool

    constructor (store: CompanyStore)
      ensures this.store == store
      ensures formData == EmptyForm && editing == None && !isModalOpen
    {
      this.store := store;
      formData := EmptyForm;
      editing := None;
      isModalOpen := false;
    }

    /** The "Agregar Miembro" button: open the dialog, keep the form. */
    method OpenForAdd()
      modifies this
      ensures isModalOpen
      ensures formData == old(formData) && editing == old(editing)
    {
      isModalOpen := true;
    }

    /** `handleEdit(member)`. */
    method HandleEdit(m: TeamMember)
      modifies this
      ensures editing == Some(m) && formData == FormOf(m) && isModalOpen
    {
      editing := Some(m);
      formData := FormOf(m);
      isModalOpen := true;
    }

    /** `handleChange(e)` for the input named `k`. */
    method HandleChange(k: Field, value: string)
      modifies this
      ensures formData == WithField(old(formData), k, value)
      ensures editing == old(editing) && isModalOpen == old(isModalOpen)
    {
      formData := WithField(formData, k, value);
    }

    /** `resetForm()`: also what closing the dialog does. */
    method ResetForm()
      modifies this
      ensures formData == EmptyForm && editing == None && !isModalOpen
    {
      formData := EmptyForm;
      editing := None;
      isModalOpen := false;
    }

    /** `handleSubmit(e)`: update the edited member or add a new one with the
        id `now` (`Date.now()`), then reset the form. */
    method HandleSubmit(now: Id)
      requires store.Valid()
      modifies this, store, store.storage
      ensures store.Valid()
      ensures store.profile == old(store.profile).(team := Submitted(old(store.profile.team), old(editing), old(formData), now))
      ensures store.applications == old(store.applications) && store.internships == old(store.internships)
      ensures store.storage.entries == old(store.storage.entries)[ProfileKey := ProfileSnap(store.profile)]
      ensures formData == EmptyForm && editing == None && !isModalOpen
    {
      if editing.Some? {
        store.UpdateTeamMember(editing.value.id, TeamFormPatch(formData));
      } else {
        store.AddTeamMember(formData, now);
      }
      ResetForm();
    }

    /** `handleDelete(id)`: the form state is left as it is. */
    method HandleDelete(id: Id)
      requires store.Valid()
      modifies store, store.storage
      ensures store.Valid()
      ensures store.profile == old(store.profile).(team := TeamRemoved(old(store.profile.team), id))
      ensures store.applications == old(store.applications) && store.internships == old(store.internships)
      ensures store.storage.entries == old(store.storage.entries)[ProfileKey := ProfileSnap(store.profile)]
      ensures formData == old(formData) && editing == old(editing) && isModalOpen == old(isModalOpen)
    {
      store.DeleteTeamMember(id);
    }
  }
}

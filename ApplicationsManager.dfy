/** The admin list of job applications: one card per application, newest
    first, with its badge, an excerpt of the experience text and its
    buttons; the buttons call the store's `updateApplicationStatus` and
    `deleteApplication`. */
module ApplicationsManager {
  import opened Records
  import opened LocalStorage
  import opened Review
  import opened CompanyContext

  /** How many characters of the experience text a card shows. */
  const ExperienceChars: nat := 100

  /** What a card shows (the submission date's locale formatting is not
      modelled). */
  datatype Card = Card(
    id: Id, name: string, position: string, email: string, phone: string,
    badge: string, experience: string, skills: string, actions: seq<Action>)

  /** The card of one application. */
  function CardOf(a: Application): (c: Card)
    ensures c.id == a.id && c.badge == BadgeLabel(a.status)
    ensures c.experience == Excerpt(a.form.experience, ExperienceChars)
    ensures c.actions == Actions(a)
  {
    Card(a.id, a.form.name, a.form.position, a.form.email, a.form.phone,
         BadgeLabel(a.status), Excerpt(a.form.experience, ExperienceChars), a.form.skills, Actions(a))
  }

  /** Every listed application offers delete, whatever its status, and offers
      approve and reject exactly when it is pending. */
  lemma ButtonsOfEveryCard(xs: seq<Application>, i: nat)
    requires i < |xs|
    ensures ListView(xs, CardOf).Cards?
    ensures Remove(xs[i].id) in ListView(xs, CardOf).cards[i].actions
    ensures SetStatus(xs[i].id, Approved) in ListView(xs, CardOf).cards[i].actions <==> xs[i].status == Pending
    ensures SetStatus(xs[i].id, Rejected) in ListView(xs, CardOf).cards[i].actions <==> xs[i].status == Pending
  {
  }

  /** The description of the toast `handleStatusChange` shows. */
  function StatusToast(s: Status): string
  {
    "La solicitud ha sido marcada como " + ConfirmWord(s) + "."
  }

  const DeleteToast: string := "La solicitud de empleo ha sido eliminada exitosamente."

  /** The component's handlers, over the store they call. */
  class Handlers {
    const store: CompanyStore

    constructor (store: CompanyStore)
      ensures this.store == store
    {
      this.store := store;
    }

    /** `handleStatusChange(id, status)`: update the store, report the
        confirmation. */
    method HandleStatusChange(id: Id, status: Status) returns (toast: string)
      requires store.Valid()
      modifies store, store.storage
      ensures store.Valid()
      ensures store.applications == StatusSet(old(store.applications), id, status)
      ensures store.profile == old(store.profile) && store.internships == old(store.internships)
      ensures store.storage.entries == old(store.storage.entries)[ApplicationsKey := ApplicationsSnap(store.applications)]
      ensures toast == StatusToast(status)
    {
      store.UpdateApplicationStatus(id, status);
      toast := StatusToast(status);
    }

    /** `handleDelete(id)`. */
    method HandleDelete(id: Id) returns (toast: string)
      requires store.Valid()
      modifies store, store.storage
      ensures store.Valid()
      ensures store.applications == EntriesRemoved(old(store.applications), id)
      ensures store.profile == old(store.profile) && store.internships == old(store.internships)
      ensures store.storage.entries == old(store.storage.entries)[ApplicationsKey := ApplicationsSnap(store.applications)]
      ensures toast == DeleteToast
    {
      store.DeleteApplication(id);
      toast := DeleteToast;
    }

    /** Pressing one of a card's buttons. */
    method Press(a: Action) returns (toast: string)
      requires store.Valid()
      modifies store, store.storage
      ensures store.Valid()
      ensures store.applications == Effect(old(store.applications), a)
      ensures store.profile == old(store.profile) && store.internships == old(store.internships)
      ensures store.storage.entries == old(store.storage.entries)[ApplicationsKey := ApplicationsSnap(store.applications)]
    {
      match a
      case SetStatus(id, to) => toast := HandleStatusChange(id, to);
      case Remove(id) => toast := HandleDelete(id);
    }
  }
}

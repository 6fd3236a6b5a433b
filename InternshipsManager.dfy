/** The admin list of internship applications: one card per internship,
    newest first, with its badge, an excerpt of the motivation text and its
    buttons; the buttons call the store's `updateInternshipStatus` and
    `deleteInternship`. Badge, buttons and confirmation word follow the same
    rules as the job-application list (module `Review`). */
module InternshipsManager {
  import opened Records
  import opened LocalStorage
  import opened Review
  import opened CompanyContext

  /** How many characters of the motivation text a card shows. */
  const MotivationChars: nat := 200

  /** What a card shows (the submission date's locale formatting is not
      modelled). */
  datatype Card = Card(
    id: Id, name: string, studies: string, university: string, email: string, phone: string,
    area: string, duration: string, availability: string,
    badge: string, motivation: string, actions: seq<Action>)

  /** The card of one internship; `studies` is `career - semester`. */
  function CardOf(a: Internship): (c: Card)
    ensures c.id == a.id && c.badge == BadgeLabel(a.status)
    ensures c.motivation == Excerpt(a.form.motivation, MotivationChars)
    ensures c.actions == Actions(a)
  {
    Card(a.id, a.form.name, a.form.career + " - " + a.form.semester, a.form.university,
         a.form.email, a.form.phone, a.form.area, a.form.duration, a.form.availability,
         BadgeLabel(a.status), Excerpt(a.form.motivation, MotivationChars), Actions(a))
  }

  /** Every listed internship offers delete, whatever its status, and offers
      approve and reject exactly when it is pending. */
  lemma ButtonsOfEveryCard(xs: seq<Internship>, i: nat)
    requires i < |xs|
    ensures ListView(xs, CardOf).Cards?
    ensures Remove(xs[i].id) in ListView(xs, CardOf).cards[i].actions
    ensures SetStatus(xs[i].id, Approved) in ListView(xs, CardOf).cards[i].actions <==> xs[i].status == Pending
    ensures SetStatus(xs[i].id, Rejected) in ListView(xs, CardOf).cards[i].actions <==> xs[i].status == Pending
  {
  }

  /** The description of the toast `handleStatusChange` shows. */
  function StatusToast(s: Status): string
  {
    "La solicitud de pasantía ha sido marcada como " + ConfirmWord(s) + "."
  }

  const DeleteToast: string := "La solicitud de pasantía ha sido eliminada exitosamente."

  /** The component's handlers, over the store they call. */
  class Handlers {
    const store: CompanyStore

    constructor (store: CompanyStore)
      ensures this.store == store
    {
      this.store := store;
    }

    /** `handleStatusChange(id, status)`: update the store, report the
        confirmation. */
    method HandleStatusChange(id: Id, status: Status) returns (toast: string)
      requires store.Valid()
      modifies store, store.storage
      ensures store.Valid()
      ensures store.internships == StatusSet(old(store.internships), id, status)
      ensures store.profile == old(store.profile) && store.applications == old(store.applications)
      ensures store.storage.entries == old(store.storage.entries)[InternshipsKey := InternshipsSnap(store.internships)]
      ensures toast == StatusToast(status)
    {
      store.UpdateInternshipStatus(id, status);
      toast := StatusToast(status);
    }

    /** `handleDelete(id)`. */
    method HandleDelete(id: Id) returns (toast: string)
      requires store.Valid()
      modifies store, store.storage
      ensures store.Valid()
      ensures store.internships == EntriesRemoved(old(store.internships), id)
      ensures store.profile == old(store.profile) && store.applications == old(store.applications)
      ensures store.storage.entries == old(store.storage.entries)[InternshipsKey := InternshipsSnap(store.internships)]
      ensures toast == DeleteToast
    {
      store.DeleteInternship(id);
      toast := DeleteToast;
    }

    /** Pressing one of a card's buttons. */
    method Press(a: Action) returns (toast: string)
      requires store.Valid()
      modifies store, store.storage
      ensures store.Valid()
      ensures store.internships == Effect(old(store.internships), a)
      ensures store.profile == old(store.profile) && store.applications == old(store.applications)
      ensures store.storage.entries == old(store.storage.entries)[InternshipsKey := InternshipsSnap(store.internships)]
    {
      match a
      case SetStatus(id, to) => toast := HandleStatusChange(id, to);
      case Remove(id) => toast := HandleDelete(id);
    }
  }
}

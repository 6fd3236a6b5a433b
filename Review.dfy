/** The review rules the two admin lists (job applications and internships)
    share: the status badge, the actions offered for an entry, the word the
    confirmation uses, the text excerpt, and what an action does to the
    list. The store itself accepts any status; these rules are the only
    place where "approve or reject only while pending" is enforced. */
module Review {
  import opened Records
  import CompanyContext
  import Lists

  /** `getStatusBadge(status)`: the label of the badge. */
  function BadgeLabel(s: Status): (badge: string)
    ensures s == Pending <==> badge == "Pendiente"
    ensures s == Approved <==> badge == "Aprobado"
    ensures s == Rejected <==> badge == "Rechazado"
    ensures s.Other? <==> badge == "Desconocido"
  {
    match s
    case Pending => "Pendiente"
    case Approved => "Aprobado"
    case Rejected => "Rechazado"
    case Other(_) => "Desconocido"
  }

  /** The switch read on the stored string: the three known strings get
      their labels, every other string the fallback. */
  lemma BadgeOfStoredText(t: string)
    ensures BadgeLabel(FromText(t)) ==
      if t == "pending" then "Pendiente"
      else if t == "approved" then "Aprobado"
      else if t == "rejected" then "Rechazado"
      else "Desconocido"
  {
  }

  /** A button of an entry's card. */
  datatype Action =
    | SetStatus(id: Id, to: Status)   // Aprobar / Rechazar: `handleStatusChange(id, to)`
    | Remove(id: Id)                  // the trash button: `handleDelete(id)`

  /** The buttons a card offers: approve and reject only while the entry is
      pending, delete always. */
  function Actions<F>(e: Entry<F>): (acts: seq<Action>)
    ensures Remove(e.id) in acts
    ensures SetStatus(e.id, Approved) in acts <==> e.status == Pending
    ensures SetStatus(e.id, Rejected) in acts <==> e.status == Pending
    ensures forall a :: a in acts ==> a.id == e.id
    ensures forall a :: a in acts && a.SetStatus? ==> e.status == Pending && a.to in {Approved, Rejected}
  {
    (if e.status == Pending then [SetStatus(e.id, Approved), SetStatus(e.id, Rejected)] else [])
      + [Remove(e.id)]
  }

  /** The word of the confirmation toast of `handleStatusChange`. */
  function ConfirmWord(s: Status): (w: string)
    ensures w == "aprobada" <==> s == Approved
    ensures w != "aprobada" ==> w == "rechazada"
  {
    if s == Approved then "aprobada" else "rechazada"
  }

  function Min(a: nat, b: nat): nat { if a <= b then a else b }

  /** `text.substring(0, n) + "..."`: the first `n` characters (all of them
      if there are fewer), and the ellipsis in every case. */
  function Excerpt(text: string, n: nat): (r: string)
    ensures |r| == Min(|text|, n) + 3
    ensures r[|r| - 3..] == "..."
    ensures r[..|r| - 3] <= text
    ensures |text| <= n ==> r == text + "..."
  {
    text[..Min(|text|, n)] + "..."
  }

  /** What pressing the button does to the list it belongs to. */
  function Effect<F>(xs: seq<Entry<F>>, a: Action): seq<Entry<F>>
  {
    match a
    case SetStatus(id, to) => CompanyContext.StatusSet(xs, id, to)
    case Remove(id) => CompanyContext.EntriesRemoved(xs, id)
  }

  /** The list header: the placeholder when the list is empty, one card per
      entry otherwise. */
  datatype View<C> = Placeholder | Cards(cards: seq<C>)

  /** A review screen's list: the placeholder exactly when there is no
      entry, otherwise one card per entry, in list order. */
  function ListView<E, C>(xs: seq<E>, cardOf: E -> C): (v: View<C>)
    ensures v.Placeholder? <==> |xs| == 0
    ensures v.Cards? ==> |v.cards| == |xs| && forall i :: 0 <= i < |xs| ==> v.cards[i] == cardOf(xs[i])
  {
    if |xs| == 0 then Placeholder else Cards(seq(|xs|, i requires 0 <= i < |xs| => cardOf(xs[i])))
  }

  /** With distinct ids, every status change a card offers moves its own
      entry from pending to approved or rejected and leaves every other
      entry as it was: through the buttons, a decided entry never changes
      status again. */
  lemma OnlyPendingIsDecided<F>(xs: seq<Entry<F>>, i: nat, a: Action)
    requires Lists.DistinctKeys(xs, (e: Entry<F>) => e.id)
    requires i < |xs| && a in Actions(xs[i]) && a.SetStatus?
    ensures |Effect(xs, a)| == |xs|
    ensures xs[i].status == Pending
    ensures Effect(xs, a)[i] == xs[i].(status := a.to) && a.to in {Approved, Rejected}
    ensures forall j :: 0 <= j < |xs| && j != i ==> Effect(xs, a)[j] == xs[j]
  {
    CompanyContext.StatusSetSpec(xs, a.id, a.to);
    forall j | 0 <= j < |xs| && j != i
      ensures Effect(xs, a)[j] == xs[j]
    {
      if j < i {
        assert xs[j].id != xs[i].id;
      } else {
        assert xs[i].id != xs[j].id;
      }
    }
  }

  /** Without distinct ids the rule no longer holds: approving one pending
      entry also approves an already rejected entry that shares its id. */
  lemma SharedIdBreaksGuard(p: Entry<int>, d: Entry<int>)
    requires p.status == Pending && d.status == Rejected && p.id == d.id
    ensures SetStatus(p.id, Approved) in Actions(p)
    ensures Effect([p, d], SetStatus(p.id, Approved))[1].status == Approved
  {
    CompanyContext.StatusSetSpec([p, d], p.id, Approved);
  }
}

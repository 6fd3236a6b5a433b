/** The records the company store holds: the company profile with its
    services and team, and the job and internship applications. A JavaScript
    object spread `{ ...a, ...b }` is written out as a patch whose fields are
    `Option`s: a present field overwrites, an absent one keeps the old value. */
module Records {
  import opened Wrappers

  /** Identifiers: the seed's small integers, or a `Date.now()` millisecond
      count for entries created later. */
  type Id = int

  /** The status string of an application, as read from its text. The store
      accepts any string; `Other` carries one that is none of the three known
      values. */
  datatype StatusValue = Pending | Approved | Rejected | Other(text: string)

  /** An `Other` never spells one of the three known values, so each stored
      text has exactly one reading. */
  predicate Canonical(s: StatusValue)
  {
    s.Other? ==> s.text !in {"pending", "approved", "rejected"}
  }

  /** The statuses the model works with: one per stored text. */
  type Status = s: StatusValue | Canonical(s) witness Pending

  /** The string the source stores for a status. */
  function ToText(s: Status): string
  {
    match s
    case Pending => "pending"
    case Approved => "approved"
    case Rejected => "rejected"
    case Other(t) => t
  }

  /** Reading a stored status string back into a `Status`. */
  function FromText(t: string): (s: Status)
    ensures ToText(s) == t
    ensures s.Other? <==> t !in {"pending", "approved", "rejected"}
  {
    if t == "pending" then Pending
    else if t == "approved" then Approved
    else if t == "rejected" then Rejected
    else Other(t)
  }

  /** Reading back what was stored gives the status that was stored. */
  lemma TextRoundTrip(s: Status)
    ensures FromText(ToText(s)) == s
  {
  }

  /** Two statuses are equal exactly when their stored texts are, so a test
      on a `Status` is the source's test on its string. */
  lemma {:induction false} SameTextSameStatus(a: Status, b: Status)
    ensures a == b <==> ToText(a) == ToText(b)
  {
    if ToText(a) == ToText(b) {
      TextRoundTrip(a);
      TextRoundTrip(b);
    }
  }

  /** `status === 'pending'`, `'approved'`, `'rejected'` on the stored text. */
  lemma StatusTests(s: Status)
    ensures s == Pending <==> ToText(s) == "pending"
    ensures s == Approved <==> ToText(s) == "approved"
    ensures s == Rejected <==> ToText(s) == "rejected"
  {
    SameTextSameStatus(s, Pending);
    SameTextSameStatus(s, Approved);
    SameTextSameStatus(s, Rejected);
  }

  /** `services[i]` of the company profile. */
  datatype Service = Service(id: Id, title: string, description: string, icon: string, price: string)

  /** The four fields the service form edits. */
  datatype ServiceForm = ServiceForm(title: string, description: string, icon: string, price: string)

  /** An object merged into a service by `{ ...service, ...patch }`. */
  datatype ServicePatch = ServicePatch(
    id: Option<Id>, title: Option<string>, description: Option<string>,
    icon: Option<string>, price: Option<string>)

  /** `team[i]` of the company profile. */
  datatype TeamMember = TeamMember(id: Id, name: string, position: string, image: string)

  /** The three fields the team form edits. */
  datatype TeamForm = TeamForm(name: string, position: string, image: string)

  /** An object merged into a team member by `{ ...member, ...patch }`. */
  datatype TeamPatch = TeamPatch(id: Option<Id>, name: Option<string>, position: Option<string>, image: Option<string>)

  /** The company profile, `companyData`. */
  datatype CompanyProfile = CompanyProfile(
    name: string, description: string, email: string, phone: string, address: string,
    services: seq<Service>, team: seq<TeamMember>)

  /** An object merged into the profile by `updateCompanyData`. */
  datatype ProfilePatch = ProfilePatch(
    name: Option<string>, description: Option<string>, email: Option<string>,
    phone: Option<string>, address: Option<string>,
    services: Option<seq<Service>>, team: Option<seq<TeamMember>>)

  /** The fields of the public job-application form. */
  datatype JobForm = JobForm(
    name: string, email: string, phone: string, position: string,
    experience: string, skills: string, motivation: string)

  /** The fields of the public internship form. */
  datatype InternForm = InternForm(
    name: string, email: string, phone: string, university: string, career: string,
    semester: string, area: string, duration: string, availability: string, motivation: string)

  /** What a form hands to `addApplication`/`addInternship`: the form's
      fields, and possibly its own `id`, `date` or `status` keys, which the
      store overwrites. */
  datatype Submission<F> = Submission(form: F, id: Option<Id>, date: Option<string>, status: Option<Status>)

  /** A stored application or internship. */
  datatype Entry<F> = Entry(id: Id, date: string, status: Status, form: F)

  type Application = Entry<JobForm>
  type Internship = Entry<InternForm>

  function ServiceId(s: Service): Id { s.id }
  function MemberId(m: TeamMember): Id { m.id }

  /** The patch with no keys, `{}`. */
  const NoProfileChange := ProfilePatch(None, None, None, None, None, None, None)

  /** `{ ...p, ...q }` on the profile. */
  function MergeProfile(p: CompanyProfile, q: ProfilePatch): CompanyProfile
  {
    CompanyProfile(
      q.name.GetOr(p.name), q.description.GetOr(p.description), q.email.GetOr(p.email),
      q.phone.GetOr(p.phone), q.address.GetOr(p.address),
      q.services.GetOr(p.services), q.team.GetOr(p.team))
  }

  /** `{ ...q1, ...q2 }` on two profile patches. */
  function CombineProfilePatches(q1: ProfilePatch, q2: ProfilePatch): ProfilePatch
  {
    ProfilePatch(
      Later(q1.name, q2.name), Later(q1.description, q2.description), Later(q1.email, q2.email),
      Later(q1.phone, q2.phone), Later(q1.address, q2.address),
      Later(q1.services, q2.services), Later(q1.team, q2.team))
  }

  /** The value of a key after spreading two objects: the later one wins. */
  function Later<T>(a: Option<T>, b: Option<T>): Option<T>
  {
    if b.Some? then b else a
  }

  /** `{ ...s, ...q }` on a service. */
  function MergeService(s: Service, q: ServicePatch): Service
  {
    Service(q.id.GetOr(s.id), q.title.GetOr(s.title), q.description.GetOr(s.description),
            q.icon.GetOr(s.icon), q.price.GetOr(s.price))
  }

  /** `{ ...m, ...q }` on a team member. */
  function MergeMember(m: TeamMember, q: TeamPatch): TeamMember
  {
    TeamMember(q.id.GetOr(m.id), q.name.GetOr(m.name), q.position.GetOr(m.position), q.image.GetOr(m.image))
  }

  /** The service form passed as a patch: it carries all four fields and no id. */
  function ServiceFormPatch(f: ServiceForm): ServicePatch
  {
    ServicePatch(None, Some(f.title), Some(f.description), Some(f.icon), Some(f.price))
  }

  /** The team form passed as a patch: it carries all three fields and no id. */
  function TeamFormPatch(f: TeamForm): TeamPatch
  {
    TeamPatch(None, Some(f.name), Some(f.position), Some(f.image))
  }

  /** `{ ...form, id }`: a new service. */
  function NewService(f: ServiceForm, id: Id): Service
  {
    Service(id, f.title, f.description, f.icon, f.price)
  }

  /** `{ ...form, id }`: a new team member. */
  function NewMember(f: TeamForm, id: Id): TeamMember
  {
    TeamMember(id, f.name, f.position, f.image)
  }

  /** The empty patch changes nothing. */
  lemma NoChangeIsIdentity(p: CompanyProfile)
    ensures MergeProfile(p, NoProfileChange) == p
  {
  }

  /** Merging is associative, as object spread is: two patches in a row are
      one combined patch. */
  lemma MergeProfileTwice(p: CompanyProfile, q1: ProfilePatch, q2: ProfilePatch)
    ensures MergeProfile(MergeProfile(p, q1), q2) == MergeProfile(p, CombineProfilePatches(q1, q2))
  {
  }

  /** Merging the same patch again changes nothing more. */
  lemma MergeProfileIdempotent(p: CompanyProfile, q: ProfilePatch)
    ensures MergeProfile(MergeProfile(p, q), q) == MergeProfile(p, q)
  {
  }

  /** The merged profile takes each supplied field from the patch and keeps
      every other one. */
  lemma MergeProfileFields(p: CompanyProfile, q: ProfilePatch)
    ensures q.name.Some? ==> MergeProfile(p, q).name == q.name.value
    ensures q.name.None? ==> MergeProfile(p, q).name == p.name
    ensures q.description.Some? ==> MergeProfile(p, q).description == q.description.value
    ensures q.description.None? ==> MergeProfile(p, q).description == p.description
    ensures q.email.Some? ==> MergeProfile(p, q).email == q.email.value
    ensures q.email.None? ==> MergeProfile(p, q).email == p.email
    ensures q.phone.Some? ==> MergeProfile(p, q).phone == q.phone.value
    ensures q.phone.None? ==> MergeProfile(p, q).phone == p.phone
    ensures q.address.Some? ==> MergeProfile(p, q).address == q.address.value
    ensures q.address.None? ==> MergeProfile(p, q).address == p.address
    ensures q.services.Some? ==> MergeProfile(p, q).services == q.services.value
    ensures q.services.None? ==> MergeProfile(p, q).services == p.services
    ensures q.team.Some? ==> MergeProfile(p, q).team == q.team.value
    ensures q.team.None? ==> MergeProfile(p, q).team == p.team
  {
  }

  /** A form patch keeps the entry's id and puts the form's fields in place. */
  lemma ServiceFormPatchFields(s: Service, f: ServiceForm)
    ensures MergeService(s, ServiceFormPatch(f)) == NewService(f, s.id)
  {
  }

  /** A form patch keeps the member's id and puts the form's fields in place. */
  lemma TeamFormPatchFields(m: TeamMember, f: TeamForm)
    ensures MergeMember(m, TeamFormPatch(f)) == NewMember(f, m.id)
  {
  }
}

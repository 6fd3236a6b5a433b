/** The company store (`CompanyProvider`): three state cells — the company
    profile, the job applications and the internship applications — each
    mirrored to its own `localStorage` key after every change. Every
    operation replaces one cell with a list transform of its old value;
    the transforms are the functions below, the cells are `CompanyStore`. */
module CompanyContext {
  import opened Wrappers
  import opened Records
  import opened LocalStorage
  import Lists

  // ---------------------------------------------------------------------
  // Seed values
  // ---------------------------------------------------------------------

  const SeedServices: seq<Service> := [
    Service(1, "Desarrollo Web", "Creamos sitios web modernos y aplicaciones web responsivas", "Code", "Desde $2,500"),
    Service(2, "Aplicaciones Móviles", "Desarrollo de apps nativas e híbridas para iOS y Android", "Smartphone", "Desde $5,000"),
    Service(3, "Consultoría IT", "Asesoramiento tecnológico para optimizar tu negocio", "Users", "Desde $150/hora"),
    Service(4, "Cloud Solutions", "Migración y gestión de infraestructura en la nube", "Cloud", "Desde $1,200"),
    Service(5, "Diseño UI/UX", "Diseño de interfaces intuitivas y experiencias de usuario memorables.", "PenTool", "Desde $1,800"),
    Service(6, "Soluciones E-commerce", "Creamos tiendas online potentes y seguras para tu negocio.", "ShoppingCart", "Desde $3,500"),
    Service(7, "SEO y Marketing Digital", "Posicionamos tu marca en internet para que llegues a más clientes.", "TrendingUp", "Desde $800/mes"),
    Service(8, "Mantenimiento y Soporte", "Aseguramos el funcionamiento óptimo de tus sistemas 24/7.", "Wrench", "Desde $300/mes")
  ]

  const SeedTeam: seq<TeamMember> := [
    TeamMember(1, "Johan Mancebo", "CEO & Fundador", "https://images.unsplash.com/photo-1535713875002-d1d0cf377fde?w=400"),
    TeamMember(2, "Carlos Rodríguez", "CTO", "https://images.unsplash.com/photo-1472099645785-5658abf4ff4e?w=400"),
    TeamMember(3, "María López", "Lead Developer", "https://images.unsplash.com/photo-1438761681033-6461ffad8d80?w=400")
  ]

  /** The profile used when nothing is stored under `josoftCompanyData`. */
  const SeedProfile: CompanyProfile := CompanyProfile(
    "JoSoftSolution",
    "Transformamos ideas en soluciones tecnológicas innovadoras",
    "josoftsolutiom@gmail.com",
    "+1 (555) 123-4567",
    "Av. Tecnología 123, Ciudad Digital",
    SeedServices,
    SeedTeam)

  /** The seed has eight services numbered 1 to 8 and three team members
      numbered 1 to 3, so no two services and no two members share an id. */
  lemma SeedIds()
    ensures |SeedProfile.services| == 8 && |SeedProfile.team| == 3
    ensures forall i :: 0 <= i < 8 ==> SeedProfile.services[i].id == i + 1
    ensures forall i :: 0 <= i < 3 ==> SeedProfile.team[i].id == i + 1
    ensures Lists.DistinctKeys(SeedProfile.services, ServiceId)
    ensures Lists.DistinctKeys(SeedProfile.team, MemberId)
  {
  }

  // ---------------------------------------------------------------------
  // Loading and mirroring
  // ---------------------------------------------------------------------

  /** `getItem(key)` is falsy: the key is absent or holds the empty string. */
  predicate Unset(m: map<string, Snapshot>, key: string)
  {
    key !in m || m[key] == Text("")
  }

  /** The stored states the model loads: each of the three keys is unset or
      holds a value of its own kind. Other states are not modelled. Malformed
      text makes `JSON.parse` throw in the initialiser. A well-formed value of
      another shape (a number, `null`, an object where a list belongs) is
      accepted by the initialiser and breaks the page only later, at render
      or at the next spread. */
  predicate Loadable(m: map<string, Snapshot>)
  {
    && (Unset(m, ProfileKey) || m[ProfileKey].ProfileSnap?)
    && (Unset(m, ApplicationsKey) || m[ApplicationsKey].ApplicationsSnap?)
    && (Unset(m, InternshipsKey) || m[InternshipsKey].InternshipsSnap?)
  }

  /** The initial `companyData`. */
  function LoadProfile(m: map<string, Snapshot>): (p: CompanyProfile)
    requires Loadable(m)
    ensures Unset(m, ProfileKey) ==> p == SeedProfile
    ensures !Unset(m, ProfileKey) ==> ProfileSnap(p) == m[ProfileKey]
  {
    if Unset(m, ProfileKey) then SeedProfile else m[ProfileKey].profile
  }

  /** The initial `applications`. */
  function LoadApplications(m: map<string, Snapshot>): (xs: seq<Application>)
    requires Loadable(m)
    ensures Unset(m, ApplicationsKey) ==> xs == []
    ensures !Unset(m, ApplicationsKey) ==> ApplicationsSnap(xs) == m[ApplicationsKey]
  {
    if Unset(m, ApplicationsKey) then [] else m[ApplicationsKey].applications
  }

  /** The initial `internships`. */
  function LoadInternships(m: map<string, Snapshot>): (xs: seq<Internship>)
    requires Loadable(m)
    ensures Unset(m, InternshipsKey) ==> xs == []
    ensures !Unset(m, InternshipsKey) ==> InternshipsSnap(xs) == m[InternshipsKey]
  {
    if Unset(m, InternshipsKey) then [] else m[InternshipsKey].internships
  }

  /** The three keys hold exactly the in-memory values. */
  ghost predicate Mirrors(m: map<string, Snapshot>, p: CompanyProfile, apps: seq<Application>, interns: seq<Internship>)
  {
    && ProfileKey in m && m[ProfileKey] == ProfileSnap(p)
    && ApplicationsKey in m && m[ApplicationsKey] == ApplicationsSnap(apps)
    && InternshipsKey in m && m[InternshipsKey] == InternshipsSnap(interns)
  }

  /** What one session leaves in storage, the next session reads back. */
  lemma ReloadRestores(m: map<string, Snapshot>, p: CompanyProfile, apps: seq<Application>, interns: seq<Internship>)
    requires Mirrors(m, p, apps, interns)
    ensures Loadable(m)
    ensures LoadProfile(m) == p && LoadApplications(m) == apps && LoadInternships(m) == interns
  {
  }

  // ---------------------------------------------------------------------
  // The list transforms
  // ---------------------------------------------------------------------

  /** `prev.services.map(s => s.id === id ? { ...s, ...q } : s)`. */
  function ServicesUpdated(xs: seq<Service>, id: Id, q: ServicePatch): seq<Service>
  {
    Lists.UpdateWhere(xs, id, ServiceId, (s: Service) => MergeService(s, q))
  }

  /** `prev.services.filter(s => s.id !== id)`. */
  function ServicesRemoved(xs: seq<Service>, id: Id): seq<Service>
  {
    Lists.RemoveWhere(xs, id, ServiceId)
  }

  /** `prev.team.map(m => m.id === id ? { ...m, ...q } : m)`. */
  function TeamUpdated(xs: seq<TeamMember>, id: Id, q: TeamPatch): seq<TeamMember>
  {
    Lists.UpdateWhere(xs, id, MemberId, (m: TeamMember) => MergeMember(m, q))
  }

  /** `prev.team.filter(m => m.id !== id)`. */
  function TeamRemoved(xs: seq<TeamMember>, id: Id): seq<TeamMember>
  {
    Lists.RemoveWhere(xs, id, MemberId)
  }

  /** `{ ...submission, id: now, date, status: 'pending' }`. */
  function Stamp<F>(sub: Submission<F>, now: Id, date: string): (e: Entry<F>)
    ensures e.id == now && e.date == date && e.status == Pending
    ensures e.form == sub.form
  {
    Entry(now, date, Pending, sub.form)
  }

  /** `prev.map(e => e.id === id ? { ...e, status } : e)`. */
  function StatusSet<F>(xs: seq<Entry<F>>, id: Id, status: Status): seq<Entry<F>>
  {
    Lists.UpdateWhere(xs, id, (e: Entry<F>) => e.id, (e: Entry<F>) => e.(status := status))
  }

  /** `prev.filter(e => e.id !== id)`. */
  function EntriesRemoved<F>(xs: seq<Entry<F>>, id: Id): seq<Entry<F>>
  {
    Lists.RemoveWhere(xs, id, (e: Entry<F>) => e.id)
  }

  // ---------------------------------------------------------------------
  // What the transforms promise
  // ---------------------------------------------------------------------

  /** `updateService`: same length and order; exactly the entries with that
      id are merged with the patch; nothing happens when no id matches. */
  lemma ServicesUpdatedSpec(xs: seq<Service>, id: Id, q: ServicePatch)
    ensures |ServicesUpdated(xs, id, q)| == |xs|
    ensures forall i :: 0 <= i < |xs| ==>
      ServicesUpdated(xs, id, q)[i] == if xs[i].id == id then MergeService(xs[i], q) else xs[i]
    ensures (forall i :: 0 <= i < |xs| ==> xs[i].id != id) ==> ServicesUpdated(xs, id, q) == xs
  {
    Lists.UpdateWhereAll(xs, id, ServiceId, (s: Service) => MergeService(s, q));
    if forall i :: 0 <= i < |xs| ==> xs[i].id != id {
      Lists.UpdateWhereMiss(xs, id, ServiceId, (s: Service) => MergeService(s, q));
    }
  }

  /** `updateTeamMember`, likewise. */
  lemma TeamUpdatedSpec(xs: seq<TeamMember>, id: Id, q: TeamPatch)
    ensures |TeamUpdated(xs, id, q)| == |xs|
    ensures forall i :: 0 <= i < |xs| ==>
      TeamUpdated(xs, id, q)[i] == if xs[i].id == id then MergeMember(xs[i], q) else xs[i]
    ensures (forall i :: 0 <= i < |xs| ==> xs[i].id != id) ==> TeamUpdated(xs, id, q) == xs
  {
    Lists.UpdateWhereAll(xs, id, MemberId, (m: TeamMember) => MergeMember(m, q));
    if forall i :: 0 <= i < |xs| ==> xs[i].id != id {
      Lists.UpdateWhereMiss(xs, id, MemberId, (m: TeamMember) => MergeMember(m, q));
    }
  }

  /** Editing a service through the form keeps every id, so distinct ids
      stay distinct. */
  lemma FormUpdateKeepsIds(xs: seq<Service>, id: Id, f: ServiceForm)
    ensures forall i :: 0 <= i < |xs| ==> ServicesUpdated(xs, id, ServiceFormPatch(f))[i].id == xs[i].id
    ensures Lists.DistinctKeys(xs, ServiceId) ==> Lists.DistinctKeys(ServicesUpdated(xs, id, ServiceFormPatch(f)), ServiceId)
  {
    Lists.UpdateWhereKeepsKeys(xs, id, ServiceId, (s: Service) => MergeService(s, ServiceFormPatch(f)));
  }

  /** `deleteService`: no entry with that id is left, all others are kept in
      their original relative order, and an absent id changes nothing. */
  lemma ServicesRemovedSpec(xs: seq<Service>, id: Id)
    ensures forall s :: s in ServicesRemoved(xs, id) ==> s.id != id && s in xs
    ensures forall i :: 0 <= i < |xs| && xs[i].id != id ==> xs[i] in ServicesRemoved(xs, id)
    ensures Lists.Subseq(ServicesRemoved(xs, id), xs)
    ensures |ServicesRemoved(xs, id)| == |xs| - Lists.Count(xs, id, ServiceId)
    ensures (forall i :: 0 <= i < |xs| ==> xs[i].id != id) ==> ServicesRemoved(xs, id) == xs
  {
    RemovedSpec(xs, id, ServiceId);
  }

  /** `deleteTeamMember`, likewise. */
  lemma TeamRemovedSpec(xs: seq<TeamMember>, id: Id)
    ensures forall m :: m in TeamRemoved(xs, id) ==> m.id != id && m in xs
    ensures forall i :: 0 <= i < |xs| && xs[i].id != id ==> xs[i] in TeamRemoved(xs, id)
    ensures Lists.Subseq(TeamRemoved(xs, id), xs)
    ensures |TeamRemoved(xs, id)| == |xs| - Lists.Count(xs, id, MemberId)
    ensures (forall i :: 0 <= i < |xs| ==> xs[i].id != id) ==> TeamRemoved(xs, id) == xs
  {
    RemovedSpec(xs, id, MemberId);
  }

  /** `deleteApplication`/`deleteInternship`, likewise. */
  lemma EntriesRemovedSpec<F>(xs: seq<Entry<F>>, id: Id)
    ensures forall e :: e in EntriesRemoved(xs, id) ==> e.id != id && e in xs
    ensures forall i :: 0 <= i < |xs| && xs[i].id != id ==> xs[i] in EntriesRemoved(xs, id)
    ensures Lists.Subseq(EntriesRemoved(xs, id), xs)
    ensures |EntriesRemoved(xs, id)| == |xs| - Lists.Count(xs, id, (e: Entry<F>) => e.id)
    ensures (forall i :: 0 <= i < |xs| ==> xs[i].id != id) ==> EntriesRemoved(xs, id) == xs
  {
    RemovedSpec(xs, id, (e: Entry<F>) => e.id);
  }

  /** The filter facts for any key function; the three lemmas above apply it. */
  lemma RemovedSpec<T>(xs: seq<T>, id: Id, idOf: T -> Id)
    ensures forall x :: x in Lists.RemoveWhere(xs, id, idOf) ==> idOf(x) != id && x in xs
    ensures forall i :: 0 <= i < |xs| && idOf(xs[i]) != id ==> xs[i] in Lists.RemoveWhere(xs, id, idOf)
    ensures Lists.Subseq(Lists.RemoveWhere(xs, id, idOf), xs)
    ensures |Lists.RemoveWhere(xs, id, idOf)| == |xs| - Lists.Count(xs, id, idOf)
    ensures (forall i :: 0 <= i < |xs| ==> idOf(xs[i]) != id) ==> Lists.RemoveWhere(xs, id, idOf) == xs
  {
    var r := Lists.RemoveWhere(xs, id, idOf);
    Lists.RemoveWhereFrom(xs, id, idOf);
    forall x | x in r ensures idOf(x) != id {
      var k :| 0 <= k < |r| && r[k] == x;
    }
    forall i | 0 <= i < |xs| && idOf(xs[i]) != id ensures xs[i] in r {
      Lists.RemoveWhereKeeps(xs, id, idOf, i);
    }
    Lists.RemoveWhereSubseq(xs, id, idOf);
    if forall i :: 0 <= i < |xs| ==> idOf(xs[i]) != id {
      Lists.RemoveWhereMiss(xs, id, idOf);
    }
  }

  /** `update*Status`: every entry keeps its id, date and form fields; the
      entries with that id get the new status, whatever it is, and every
      other entry keeps its own. */
  lemma StatusSetSpec<F>(xs: seq<Entry<F>>, id: Id, status: Status)
    ensures |StatusSet(xs, id, status)| == |xs|
    ensures forall i :: 0 <= i < |xs| ==>
      var e := StatusSet(xs, id, status)[i];
      && e.id == xs[i].id && e.date == xs[i].date && e.form == xs[i].form
      && e.status == if xs[i].id == id then status else xs[i].status
    ensures (forall i :: 0 <= i < |xs| ==> xs[i].id != id) ==> StatusSet(xs, id, status) == xs
  {
    Lists.UpdateWhereAll(xs, id, (e: Entry<F>) => e.id, (e: Entry<F>) => e.(status := status));
    if forall i :: 0 <= i < |xs| ==> xs[i].id != id {
      Lists.UpdateWhereMiss(xs, id, (e: Entry<F>) => e.id, (e: Entry<F>) => e.(status := status));
    }
  }

  /** `addService` with an id no entry has keeps the ids distinct. */
  lemma AddServiceFresh(xs: seq<Service>, f: ServiceForm, now: Id)
    requires Lists.DistinctKeys(xs, ServiceId)
    requires forall i :: 0 <= i < |xs| ==> xs[i].id != now
    ensures Lists.DistinctKeys(xs + [NewService(f, now)], ServiceId)
  {
  }

  // ---------------------------------------------------------------------
  // The store
  // ---------------------------------------------------------------------

  class CompanyStore {
    var profile: CompanyProfile
    var applications: seq<Application>
    var internships: seq<Internship>
    const storage: Storage

    /** The storage keys hold exactly the three cells. */
    ghost predicate Valid()
      reads this, storage
    {
      Mirrors(storage.entries, profile, applications, internships)
    }

    /** Mounting the provider: read the three keys, then the effects write
        the three cells back. */
    constructor (local: Storage)
      requires Loadable(local.entries)
      modifies local
      ensures storage == local
      ensures profile == LoadProfile(old(local.entries))
      ensures applications == LoadApplications(old(local.entries))
      ensures internships == LoadInternships(old(local.entries))
      ensures local.entries == old(local.entries)[ProfileKey := ProfileSnap(profile)]
                [ApplicationsKey := ApplicationsSnap(applications)][InternshipsKey := InternshipsSnap(internships)]
      ensures Valid()
    {
      profile := LoadProfile(local.entries);
      applications := LoadApplications(local.entries);
      internships := LoadInternships(local.entries);
      storage := local;
      new;
      storage.SetItem(ProfileKey, ProfileSnap(profile));
      storage.SetItem(ApplicationsKey, ApplicationsSnap(applications));
      storage.SetItem(InternshipsKey, InternshipsSnap(internships));
    }

    /** `updateCompanyData(newData)`. */
    method UpdateCompanyData(q: ProfilePatch)
      requires Valid()
      modifies this, storage
      ensures Valid()
      ensures profile == MergeProfile(old(profile), q)
      ensures applications == old(applications) && internships == old(internships)
      ensures storage.entries == old(storage.entries)[ProfileKey := ProfileSnap(profile)]
    {
      profile := MergeProfile(profile, q);
      storage.SetItem(ProfileKey, ProfileSnap(profile));
    }

    /** `addService(service)`, with `now` standing for `Date.now()`. */
    method AddService(f: ServiceForm, now: Id)
      requires Valid()
      modifies this, storage
      ensures Valid()
      ensures profile == old(profile).(services := old(profile).services + [NewService(f, now)])
      ensures applications == old(applications) && internships == old(internships)
      ensures storage.entries == old(storage.entries)[ProfileKey := ProfileSnap(profile)]
    {
      profile := profile.(services := profile.services + [NewService(f, now)]);
      storage.SetItem(ProfileKey, ProfileSnap(profile));
    }

    /** `updateService(id, updatedService)`. */
    method UpdateService(id: Id, q: ServicePatch)
      requires Valid()
      modifies this, storage
      ensures Valid()
      ensures profile == old(profile).(services := ServicesUpdated(old(profile).services, id, q))
      ensures applications == old(applications) && internships == old(internships)
      ensures storage.entries == old(storage.entries)[ProfileKey := ProfileSnap(profile)]
    {
      profile := profile.(services := ServicesUpdated(profile.services, id, q));
      storage.SetItem(ProfileKey, ProfileSnap(profile));
    }

    /** `deleteService(id)`. */
    method DeleteService(id: Id)
      requires Valid()
      modifies this, storage
      ensures Valid()
      ensures profile == old(profile).(services := ServicesRemoved(old(profile).services, id))
      ensures applications == old(applications) && internships == old(internships)
      ensures storage.entries == old(storage.entries)[ProfileKey := ProfileSnap(profile)]
    {
      profile := profile.(services := ServicesRemoved(profile.services, id));
      storage.SetItem(ProfileKey, ProfileSnap(profile));
    }

    /** `addTeamMember(member)`, with `now` standing for `Date.now()`. */
    method AddTeamMember(f: TeamForm, now: Id)
      requires Valid()
      modifies this, storage
      ensures Valid()
      ensures profile == old(profile).(team := old(profile).team + [NewMember(f, now)])
      ensures applications == old(applications) && internships == old(internships)
      ensures storage.entries == old(storage.entries)[ProfileKey := ProfileSnap(profile)]
    {
      profile := profile.(team := profile.team + [NewMember(f, now)]);
      storage.SetItem(ProfileKey, ProfileSnap(profile));
    }

    /** `updateTeamMember(id, updatedMember)`. */
    method UpdateTeamMember(id: Id, q: TeamPatch)
      requires Valid()
      modifies this, storage
      ensures Valid()
      ensures profile == old(profile).(team := TeamUpdated(old(profile).team, id, q))
      ensures applications == old(applications) && internships == old(internships)
      ensures storage.entries == old(storage.entries)[ProfileKey := ProfileSnap(profile)]
    {
      profile := profile.(team := TeamUpdated(profile.team, id, q));
      storage.SetItem(ProfileKey, ProfileSnap(profile));
    }

    /** `deleteTeamMember(id)`. */
    method DeleteTeamMember(id: Id)
      requires Valid()
      modifies this, storage
      ensures Valid()
      ensures profile == old(profile).(team := TeamRemoved(old(profile).team, id))
      ensures applications == old(applications) && internships == old(internships)
      ensures storage.entries == old(storage.entries)[ProfileKey := ProfileSnap(profile)]
    {
      profile := profile.(team := TeamRemoved(profile.team, id));
      storage.SetItem(ProfileKey, ProfileSnap(profile));
    }

    /** `addApplication(application)`; `now` and `date` stand for
        `Date.now()` and `new Date().toISOString()`. */
    method AddApplication(sub: Submission<JobForm>, now: Id, date: string)
      requires Valid()
      modifies this, storage
      ensures Valid()
      ensures applications == [Stamp(sub, now, date)] + old(applications)
      ensures profile == old(profile) && internships == old(internships)
      ensures storage.entries == old(storage.entries)[ApplicationsKey := ApplicationsSnap(applications)]
    {
      applications := [Stamp(sub, now, date)] + applications;
      storage.SetItem(ApplicationsKey, ApplicationsSnap(applications));
    }

    /** `addInternship(internship)`. */
    method AddInternship(sub: Submission<InternForm>, now: Id, date: string)
      requires Valid()
      modifies this, storage
      ensures Valid()
      ensures internships == [Stamp(sub, now, date)] + old(internships)
      ensures profile == old(profile) && applications == old(applications)
      ensures storage.entries == old(storage.entries)[InternshipsKey := InternshipsSnap(internships)]
    {
      internships := [Stamp(sub, now, date)] + internships;
      storage.SetItem(InternshipsKey, InternshipsSnap(internships));
    }

    /** `updateApplicationStatus(id, status)`: any status is accepted. */
    method UpdateApplicationStatus(id: Id, status: Status)
      requires Valid()
      modifies this, storage
      ensures Valid()
      ensures applications == StatusSet(old(applications), id, status)
      ensures profile == old(profile) && internships == old(internships)
      ensures storage.entries == old(storage.entries)[ApplicationsKey := ApplicationsSnap(applications)]
    {
      applications := StatusSet(applications, id, status);
      storage.SetItem(ApplicationsKey, ApplicationsSnap(applications));
    }

    /** `updateInternshipStatus(id, status)`: any status is accepted. */
    method UpdateInternshipStatus(id: Id, status: Status)
      requires Valid()
      modifies this, storage
      ensures Valid()
      ensures internships == StatusSet(old(internships), id, status)
      ensures profile == old(profile) && applications == old(applications)
      ensures storage.entries == old(storage.entries)[InternshipsKey := InternshipsSnap(internships)]
    {
      internships := StatusSet(internships, id, status);
      storage.SetItem(InternshipsKey, InternshipsSnap(internships));
    }

    /** `deleteApplication(id)`. */
    method DeleteApplication(id: Id)
      requires Valid()
      modifies this, storage
      ensures Valid()
      ensures applications == EntriesRemoved(old(applications), id)
      ensures profile == old(profile) && internships == old(internships)
      ensures storage.entries == old(storage.entries)[ApplicationsKey := ApplicationsSnap(applications)]
    {
      applications := EntriesRemoved(applications, id);
      storage.SetItem(ApplicationsKey, ApplicationsSnap(applications));
    }

    /** `deleteInternship(id)`. */
    method DeleteInternship(id: Id)
      requires Valid()
      modifies this, storage
      ensures Valid()
      ensures internships == EntriesRemoved(old(internships), id)
      ensures profile == old(profile) && applications == old(applications)
      ensures storage.entries == old(storage.entries)[InternshipsKey := InternshipsSnap(internships)]
    {
      internships := EntriesRemoved(internships, id);
      storage.SetItem(InternshipsKey, InternshipsSnap(internships));
    }
  }

  /** Two job applications submitted one after the other: the later one is
      listed first, then the earlier one, then what was there before, and
      storage holds the same list. */
  method SubmitTwoApplications(store: CompanyStore, a: Submission<JobForm>, t1: Id, d1: string,
                               b: Submission<JobForm>, t2: Id, d2: string)
    requires store.Valid()
    modifies store, store.storage
    ensures store.Valid()
    ensures store.applications == [Stamp(b, t2, d2), Stamp(a, t1, d1)] + old(store.applications)
    ensures store.profile == old(store.profile) && store.internships == old(store.internships)
    ensures store.storage.entries == old(store.storage.entries)[ApplicationsKey := ApplicationsSnap(store.applications)]
  {
    store.AddApplication(a, t1, d1);
    store.AddApplication(b, t2, d2);
  }

  /** Two internship requests submitted one after the other: newest first,
      as for applications. */
  method SubmitTwoInternships(store: CompanyStore, a: Submission<InternForm>, t1: Id, d1: string,
                              b: Submission<InternForm>, t2: Id, d2: string)
    requires store.Valid()
    modifies store, store.storage
    ensures store.Valid()
    ensures store.internships == [Stamp(b, t2, d2), Stamp(a, t1, d1)] + old(store.internships)
    ensures store.profile == old(store.profile) && store.applications == old(store.applications)
    ensures store.storage.entries == old(store.storage.entries)[InternshipsKey := InternshipsSnap(store.internships)]
  {
    store.AddInternship(a, t1, d1);
    store.AddInternship(b, t2, d2);
  }
}

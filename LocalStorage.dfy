/** The browser's `localStorage`, seen as a map from key to the value that
    was stored under it. Serialisation (`JSON.stringify`/`JSON.parse`) is not
    modelled: a stored value is the snapshot it would parse back to, or a
    plain string. */
module LocalStorage {
  import opened Records

  datatype Snapshot =
    | ProfileSnap(profile: CompanyProfile)
    | ApplicationsSnap(applications: seq<Application>)
    | InternshipsSnap(internships: seq<Internship>)
    | Text(text: string)

  const ProfileKey: string := "josoftCompanyData"
  const ApplicationsKey: string := "josoftApplications"
  const InternshipsKey: string := "josoftInternships"
  const AuthKey: string := "josoft_auth"

  /** The one storage area every context of the page shares. */
  class Storage {
    var entries: map<string, Snapshot>

    constructor (initial: map<string, Snapshot>)
      ensures entries == initial
    {
      entries := initial;
    }

    /** `localStorage.setItem(key, value)`. */
    method SetItem(key: string, value: Snapshot)
      modifies this
      ensures entries == old(entries)[key := value]
      ensures key in entries && entries[key] == value
    {
      entries := entries[key := value];
    }

    /** `localStorage.removeItem(key)`. */
    method RemoveItem(key: string)
      modifies this
      ensures entries == old(entries) - {key}
      ensures key !in entries
    {
      entries := entries - {key};
    }
  }
}

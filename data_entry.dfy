/** The data-entry page: a form of seven text fields, each edited through
    its own input, saved by a handler that does no validation of its own
    and then cleared back to a fresh form dated today; plus the parts of
    the page that depend on the signed-in role. */
module DataEntry {
  import opened Wrappers
  import opened IsoDates
  import Auth

  datatype Field = Date | Mortality | FeedConsumption | Weight | Notes | ChicksLoaded | Harvested

  /** The value of `formData`. */
  datatype Entry = Entry(
    date: string,
    mortality: string,
    feedConsumption: string,
    weight: string,
    notes: string,
    chicksLoaded: string,
    harvested: string)

  function Get(e: Entry, f: Field): string {
    match f
    case Date => e.date
    case Mortality => e.mortality
    case FeedConsumption => e.feedConsumption
    case Weight => e.weight
    case Notes => e.notes
    case ChicksLoaded => e.chicksLoaded
    case Harvested => e.harvested
  }

  /** `{...prev, f: value}`. */
  function Set(e: Entry, f: Field, value: string): (e': Entry)
    ensures Get(e', f) == value
    ensures forall g :: g != f ==> Get(e', g) == Get(e, g)
  {
    match f
    case Date => e.(date := value)
    case Mortality => e.(mortality := value)
    case FeedConsumption => e.(feedConsumption := value)
    case Weight => e.(weight := value)
    case Notes => e.(notes := value)
    case ChicksLoaded => e.(chicksLoaded := value)
    case Harvested => e.(harvested := value)
  }

  /** A fresh form: today's date, every other field empty. */
  function Initial(nowIso: string): (e: Entry)
    ensures Get(e, Date) == DatePart(nowIso)
    ensures forall f :: f != Date ==> Get(e, f) == ""
  {
    Entry(DatePart(nowIso), "", "", "", "", "", "")
  }

  const SavedToast := Auth.Toast("Data Saved Successfully", Some("Data will sync when connection is available"), false)

  class DataEntryForm {
    var date: string
    var mortality: string
    var feedConsumption: string
    var weight: string
    var notes: string
    var chicksLoaded: string
    var harvested: string

    function Snapshot(): Entry
      reads this
    {
      Entry(date, mortality, feedConsumption, weight, notes, chicksLoaded, harvested)
    }

    constructor (nowIso: string)
      ensures Snapshot() == Initial(nowIso)
    {
      date := DatePart(nowIso);
      mortality, feedConsumption, weight, notes, chicksLoaded, harvested := "", "", "", "", "", "";
    }

    /** Any of the seven inputs' `onChange`: it replaces its own field. */
    method Update(f: Field, value: string)
      modifies this
      ensures Snapshot() == Set(old(Snapshot()), f, value)
    {
      match f
      case Date => date := value;
      case Mortality => mortality := value;
      case FeedConsumption => feedConsumption := value;
      case Weight => weight := value;
      case Notes => notes := value;
      case ChicksLoaded => chicksLoaded := value;
      case Harvested => harvested := value;
    }

    /** `handleSubmit`, once the browser lets the submit through: whatever
        the fields hold, it reports success and resets the form, the date
        recomputed from the clock. */
    method HandleSubmit(nowIso: string) returns (toast: Auth.Toast)
      modifies this
      ensures toast == SavedToast
      ensures Snapshot() == Initial(nowIso)
    {
      toast := SavedToast;
      date := DatePart(nowIso);
      mortality, feedConsumption, weight, notes, chicksLoaded, harvested := "", "", "", "", "", "";
    }
  }

  /** Role-dependent parts of the page. */
  function Heading(role: Auth.Role): string {
    if role == Auth.Grower then "Daily Data Entry" else "Update Farm Records"
  }

  function RoleBadge(role: Auth.Role): string {
    if role == Auth.Grower then "Grower" else "Technician"
  }

  function RoleBadgeVariant(role: Auth.Role): string {
    if role == Auth.Grower then "default" else "secondary"
  }

  /** The "Technician Verification" panel. */
  predicate ShowsVerificationPanel(role: Auth.Role) {
    role != Auth.Grower
  }

  lemma RoleViews(role: Auth.Role)
    ensures Heading(role) == "Daily Data Entry" <==> role == Auth.Grower
    ensures RoleBadge(role) == "Grower" <==> role == Auth.Grower
    ensures RoleBadgeVariant(role) == "default" <==> role == Auth.Grower
    ensures ShowsVerificationPanel(role) <==> role == Auth.Technician
  {
  }

  /** A client scenario, checked statically: edits touch only their own
      field, and a submit brings back exactly the form a fresh page would
      show. */
  method EntryScenario(openedAt: string, savedAt: string)
  {
    var form := new DataEntryForm(openedAt);
    form.Update(Mortality, "3");
    form.Update(Notes, "coughing in barn 2");
    assert form.mortality == "3" && form.notes == "coughing in barn 2" && form.weight == "";
    var toast := form.HandleSubmit(savedAt);
    assert toast.title == "Data Saved Successfully";
    var reopened := new DataEntryForm(savedAt);
    assert form.Snapshot() == reopened.Snapshot();
  }
}

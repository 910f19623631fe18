/** The seven record states of the C# pipeline and their classification helpers. */
module DniStatus {
  import opened Wrappers

  datatype DniStatus =
    | Pending
    | CheckingUniversity
    | FoundUniversity
    | CheckingInstitute
    | FoundInstitute
    | NotFound
    | Failed

  const AllStatuses: set<DniStatus> :=
    {Pending, CheckingUniversity, FoundUniversity, CheckingInstitute, FoundInstitute, NotFound, Failed}

  /** The enum's underlying integer. */
  function Value(s: DniStatus): (v: nat)
    ensures v <= 6
  {
    match s
    case Pending => 0
    case CheckingUniversity => 1
    case FoundUniversity => 2
    case CheckingInstitute => 3
    case FoundInstitute => 4
    case NotFound => 5
    case Failed => 6
  }

  /** The enum member with a given underlying integer, if there is one. */
  function FromValue(v: int): (r: Option<DniStatus>)
    ensures r.Some? <==> 0 <= v <= 6
    ensures r.Some? ==> Value(r.value) == v
  {
    if v == 0 then Some(Pending)
    else if v == 1 then Some(CheckingUniversity)
    else if v == 2 then Some(FoundUniversity)
    else if v == 3 then Some(CheckingInstitute)
    else if v == 4 then Some(FoundInstitute)
    else if v == 5 then Some(NotFound)
    else if v == 6 then Some(Failed)
    else None
  }

  lemma ValueRoundTrip(s: DniStatus)
    ensures FromValue(Value(s)) == Some(s)
  {
  }

  /** The member name, which is what the status column stores. */
  function Name(s: DniStatus): string
  {
    match s
    case Pending => "Pending"
    case CheckingUniversity => "CheckingUniversity"
    case FoundUniversity => "FoundUniversity"
    case CheckingInstitute => "CheckingInstitute"
    case FoundInstitute => "FoundInstitute"
    case NotFound => "NotFound"
    case Failed => "Failed"
  }

  /** Reading a stored status name back. */
  function Parse(name: string): (r: Option<DniStatus>)
    ensures r.Some? ==> Name(r.value) == name
  {
    if name == "Pending" then Some(Pending)
    else if name == "CheckingUniversity" then Some(CheckingUniversity)
    else if name == "FoundUniversity" then Some(FoundUniversity)
    else if name == "CheckingInstitute" then Some(CheckingInstitute)
    else if name == "FoundInstitute" then Some(FoundInstitute)
    else if name == "NotFound" then Some(NotFound)
    else if name == "Failed" then Some(Failed)
    else None
  }

  /** Storing a status as its name and reading it back gives the same status. */
  lemma NameRoundTrip(s: DniStatus)
    ensures Parse(Name(s)) == Some(s)
  {
  }

  lemma NameInjective(s: DniStatus, t: DniStatus)
    ensures Name(s) == Name(t) ==> s == t
  {
    NameRoundTrip(s);
    NameRoundTrip(t);
  }

  predicate IsTerminal(s: DniStatus)
  {
    s == FoundUniversity || s == FoundInstitute || s == NotFound || s == Failed
  }

  predicate IsActive(s: DniStatus)
  {
    s == Pending || s == CheckingUniversity || s == CheckingInstitute
  }

  predicate IsRetryable(s: DniStatus)
  {
    s == NotFound || s == Failed
  }

  /** Every status is either terminal or active, never both, and retryable ones are terminal. */
  lemma Classification(s: DniStatus)
    ensures IsTerminal(s) <==> !IsActive(s)
    ensures IsRetryable(s) ==> IsTerminal(s)
  {
  }
}

/** The patient directory: the loaded patients, a `loading` flag, the search
    text and the one expanded row. The search keeps a patient when its name,
    phone and diagnosis, joined by spaces and lower-cased, contain the
    lower-cased search text. */
module PatientList {
  import opened Common

  /** A field of a patient record as the server sent it: text, absent, or null. */
  datatype Field = Text(s: string) | Undefined | Null

  datatype Patient = Patient(id: string, firstName: Field, lastName: Field, phone: Field, diagnosis: Field)

  /** A field interpolated into a template literal. */
  function FieldText(f: Field): (t: string)
    ensures f.Text? ==> t == f.s
    ensures f.Undefined? ==> t == "undefined"
    ensures f.Null? ==> t == "null"
  {
    match f
    case Text(s) => s
    case Undefined => "undefined"
    case Null => "null"
  }

  /** `${firstName} ${lastName} ${phone} ${diagnosis}` */
  function SearchText(p: Patient): string {
    FieldText(p.firstName) + " " + FieldText(p.lastName) + " " + FieldText(p.phone) + " " + FieldText(p.diagnosis)
  }

  predicate Matches(p: Patient, search: string) {
    Contains(Lower(SearchText(p)), Lower(search))
  }

  /** The visible rows: the matching patients, in their loaded order. */
  function FilteredPatients(patients: seq<Patient>, search: string): (r: seq<Patient>)
    ensures IsSubsequence(r, patients)
    ensures forall i :: 0 <= i < |r| ==> r[i] in patients && Matches(r[i], search)
    ensures forall i :: 0 <= i < |patients| && Matches(patients[i], search) ==> patients[i] in r
    ensures forall p :: multiset(r)[p] == (if Matches(p, search) then multiset(patients)[p] else 0)
  {
    Filter(patients, p => Matches(p, search))
  }

  /** An empty search shows every patient, in order. */
  lemma EmptySearchShowsAll(patients: seq<Patient>)
    ensures FilteredPatients(patients, "") == patients
  {
    forall i | 0 <= i < |patients|
      ensures Matches(patients[i], "")
    {
      assert StartsWith(Lower(SearchText(patients[i])), "");
    }
    FilterKeepsAll(patients, p => Matches(p, ""));
  }

  /** The search ignores ASCII case: a search and its lower case show the same rows. */
  lemma SearchIgnoresCase(patients: seq<Patient>, search: string)
    ensures FilteredPatients(patients, search) == FilteredPatients(patients, Lower(search))
  {
    LowerOfLowercase(Lower(search));
    FilterAgrees(patients, p => Matches(p, search), p => Matches(p, Lower(search)));
  }

  /** A missing name is searched as the word "undefined". */
  lemma MissingFieldIsSearchedAsUndefined(id: string)
    ensures Matches(Patient(id, Undefined, Undefined, Undefined, Undefined), "undef")
  {
    var text := SearchText(Patient(id, Undefined, Undefined, Undefined, Undefined));
    LowerOfLowercase(text);
    LowerOfLowercase("undef");
    assert StartsWith(Lower(text), "undef");
  }

  /** `toggleRow(id)`: the row closes if it was the one open, and opens otherwise
      (closing whichever other row was open). */
  function Toggle(expanded: Option<string>, id: string): (r: Option<string>)
    ensures r == None <==> expanded == Some(id)
    ensures r.Some? ==> r.value == id
  {
    if expanded == Some(id) then None else Some(id)
  }

  /** Toggling the same row twice restores the state exactly when no other row
      was open before. */
  lemma ToggleTwice(expanded: Option<string>, id: string)
    ensures Toggle(Toggle(expanded, id), id) == expanded <==> expanded == None || expanded == Some(id)
  {
  }

  /** What the patients call resolves to. */
  datatype PatientsResponse =
    | PatientArray(items: seq<Patient>)                // an array
    | PatientObject(patients: Option<seq<Patient>>)    // an object, with or without `patients`
    | NoBody                                           // null or undefined

  /** `Array.isArray(response) ? response : response?.patients || []` */
  function Normalise(response: PatientsResponse): (ps: seq<Patient>)
    ensures response.PatientArray? ==> ps == response.items
    ensures response.PatientObject? && response.patients.Some? ==> ps == response.patients.value
    ensures response.NoBody? || response == PatientObject(None) ==> ps == []
  {
    match response
    case PatientArray(items) => items
    case PatientObject(patients) => if patients.Some? then patients.value else []
    case NoBody => []
  }

  /** The bare array and the array wrapped as `patients` load the same list. */
  lemma NormaliseAcceptsBothShapes(ps: seq<Patient>)
    ensures Normalise(PatientArray(ps)) == Normalise(PatientObject(Some(ps))) == ps
  {
  }

  /** The table body: the loading row, the empty-result row, or the patient rows. */
  datatype TableBody = LoadingRow | NoPatientsRow | PatientRows(rows: seq<Patient>)

  class PatientDirectory {
    var patients: seq<Patient>
    var loading: bool
    var search: string
    var expanded: Option<string>

    constructor ()
      ensures patients == [] && loading && search == "" && expanded == None
    {
      patients, loading, search, expanded := [], true, "", None;
    }

    /** What the table body shows. */
    function Body(): (b: TableBody)
      reads this
      ensures b == LoadingRow <==> loading
      ensures b == NoPatientsRow <==> !loading && FilteredPatients(patients, search) == []
      ensures b.PatientRows? ==> b.rows == FilteredPatients(patients, search) && b.rows != []
    {
      if loading then LoadingRow
      else if FilteredPatients(patients, search) == [] then NoPatientsRow
      else PatientRows(FilteredPatients(patients, search))
    }

    /** `loadPatients` up to the call. */
    method BeginLoad()
      modifies this
      ensures loading
      ensures patients == old(patients) && search == old(search) && expanded == old(expanded)
    {
      loading := true;
    }

    /** `loadPatients` after the call: a reply replaces the list with its
        normalised form, a failure keeps the previous list; `loading` is cleared
        either way. */
    method FinishLoad(reply: Reply<PatientsResponse>)
      modifies this
      ensures !loading
      ensures reply.Ok? ==> patients == Normalise(reply.value)
      ensures reply.Err? ==> patients == old(patients)
      ensures search == old(search) && expanded == old(expanded)
    {
      if reply.Ok? {
        patients := Normalise(reply.value);
      }
      loading := false;
    }

    method SetSearch(value: string)
      modifies this
      ensures search == value
      ensures patients == old(patients) && loading == old(loading) && expanded == old(expanded)
    {
      search := value;
    }

    /** A click on a patient's row. */
    method ToggleRow(id: string)
      modifies this
      ensures expanded == Toggle(old(expanded), id)
      ensures patients == old(patients) && loading == old(loading) && search == old(search)
    {
      if expanded == Some(id) {
        expanded := None;
      } else {
        expanded := Some(id);
      }
    }

    /** The delete button: a declined confirmation sends nothing; otherwise the
        delete is sent and, when it succeeds, the list is reloaded. */
    method HandleDelete(id: string, confirmed: bool, deleteReply: Reply<Json>)
      returns (deleted: Option<string>, reload: bool)
      modifies this
      ensures deleted == (if confirmed then Some(id) else None)
      ensures reload <==> confirmed && deleteReply.Ok?
      ensures loading == (old(loading) || reload)
      ensures patients == old(patients) && search == old(search) && expanded == old(expanded)
    {
      deleted, reload := None, false;
      if !confirmed {
        return;
      }
      deleted := Some(id);
      if deleteReply.Ok? {
        reload := true;
        BeginLoad();
      }
    }
  }
}

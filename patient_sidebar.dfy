/**
 * The patient sidebar (Frontend/components/PatientSidebar.js): the short
 * display id, the search and filter chain over the patient list, selection,
 * the notes preview and the 'N/A' fallback of a detail row.
 */
module PatientSidebar {
  import opened Values
  import opened Text

  /**
   * A row of the patient list as the search reads it. `name` and `mpid` are
   * strings (the search calls `toLowerCase` on them); a missing phone, lead
   * status or booking status is the empty string, which no test matches.
   * `followUpDate` is the raw `follow_up_date`, which the date filters read.
   */
  datatype Patient = Patient(
    patientId: Value,
    name: string,
    mpid: string,
    phoneNumber: string,
    leadStatus: string,
    bookingStatus: string,
    followUpDate: Value)

  /** `getPatientDisplayId`: '' for a falsy id, '...' and the last four characters when longer than four. */
  function DisplayId(mpid: Value): (r: string)
    ensures !Truthy(mpid) ==> r == ""
    ensures Truthy(mpid) && |ToJsString(mpid)| > 4 ==>
      |r| == 7 && r[..3] == "..." && EndsWith(ToJsString(mpid), r[3..])
    ensures Truthy(mpid) && |ToJsString(mpid)| <= 4 ==> r == ToJsString(mpid)
  {
    if !Truthy(mpid) then ""
    else
      var idStr := ToJsString(mpid);
      if |idStr| > 4 then "..." + TakeLast(idStr, 4) else idStr
  }

  /** The text search: an empty term matches every patient. */
  predicate MatchesSearch(searchTerm: string, p: Patient)
  {
    searchTerm == ""
    || Contains(Lower(p.name), Lower(searchTerm))
    || Contains(Lower(p.mpid), Lower(searchTerm))
    || (p.phoneNumber != "" && Contains(p.phoneNumber, searchTerm))
  }

  /**
   * The `switch (activeFilter)`. 'recent' and 'today' drop a patient with a
   * falsy `follow_up_date` and otherwise compare that date with the current
   * day; the comparison, which reads the clock, is given here as `dateKeep`.
   */
  predicate MatchesFilter(activeFilter: string, dateKeep: Value -> bool, p: Patient)
  {
    if activeFilter == "recent" || activeFilter == "today" then Truthy(p.followUpDate) && dateKeep(p.followUpDate)
    else if activeFilter == "followup" then
      p.leadStatus == "Expected to book" || p.leadStatus == "Not explained yet" || p.bookingStatus == "No interaction"
    else true
  }

  predicate Keeps(searchTerm: string, activeFilter: string, dateKeep: Value -> bool, p: Patient)
  {
    MatchesSearch(searchTerm, p) && MatchesFilter(activeFilter, dateKeep, p)
  }

  /** `sub` is `s` with some elements left out, the rest in their order. */
  predicate IsSubsequence(sub: seq<Patient>, s: seq<Patient>)
    decreases |s|
  {
    if sub == [] then true
    else if s == [] then false
    else if sub[0] == s[0] then IsSubsequence(sub[1..], s[1..])
    else IsSubsequence(sub, s[1..])
  }

  /** `filteredPatients`: the search filter, then the selected filter. */
  function FilterPatients(all: seq<Patient>, searchTerm: string, activeFilter: string, dateKeep: Value -> bool)
    : (r: seq<Patient>)
    ensures IsSubsequence(r, all)
    ensures forall p :: p in r <==> p in all && Keeps(searchTerm, activeFilter, dateKeep, p)
    ensures forall p :: multiset(r)[p] == if Keeps(searchTerm, activeFilter, dateKeep, p) then multiset(all)[p] else 0
    ensures |r| <= |all|
  {
    if all == [] then []
    else
      var rest := FilterPatients(all[1..], searchTerm, activeFilter, dateKeep);
      assert all == [all[0]] + all[1..];
      assert multiset(all) == multiset{all[0]} + multiset(all[1..]);
      if Keeps(searchTerm, activeFilter, dateKeep, all[0]) then
        assert (forall p :: p in all <==> p == all[0] || p in all[1..]);
        assert multiset([all[0]] + rest) == multiset{all[0]} + multiset(rest);
        [all[0]] + rest
      else
        assert (forall p :: p in all <==> p == all[0] || p in all[1..]);
        SubsequenceOfTail(rest, all);
        rest
  }

  lemma {:induction false} SubsequenceOfTail(sub: seq<Patient>, s: seq<Patient>)
    requires s != [] && IsSubsequence(sub, s[1..])
    ensures IsSubsequence(sub, s)
    decreases |s|, 0
  {
    if sub != [] && sub[0] == s[0] {
      assert IsSubsequence(sub[1..], s[1..]) by {
        SubsequenceDropHead(sub, s[1..]);
      }
    }
  }

  lemma {:induction false} SubsequenceDropHead(sub: seq<Patient>, s: seq<Patient>)
    requires sub != [] && IsSubsequence(sub, s)
    ensures IsSubsequence(sub[1..], s)
    decreases |s|, 1
  {
    if s != [] && sub[0] != s[0] {
      SubsequenceDropHead(sub, s[1..]);
      SubsequenceOfTail(sub[1..], s);
    } else if s != [] {
      SubsequenceOfTail(sub[1..], s);
    }
  }

  /** With an empty search and the default 'search' filter the list is shown whole. */
  lemma {:induction false} NoSearchShowsAll(all: seq<Patient>, dateKeep: Value -> bool)
    ensures FilterPatients(all, "", "search", dateKeep) == all
  {
    if all != [] {
      NoSearchShowsAll(all[1..], dateKeep);
    }
  }

  /** Narrowing the search term to a longer one never brings a patient back. */
  lemma SearchNarrowing(all: seq<Patient>, term: string, extra: string, activeFilter: string, dateKeep: Value -> bool, p: Patient)
    requires term != ""
    requires p in FilterPatients(all, term + extra, activeFilter, dateKeep)
    ensures p in FilterPatients(all, term, activeFilter, dateKeep)
  {
    var longer := term + extra;
    assert Keeps(longer, activeFilter, dateKeep, p);
    assert Lower(longer)[..|term|] == Lower(term);
    if Contains(Lower(p.name), Lower(longer)) {
      ContainsPrefix(Lower(p.name), Lower(longer), |term|);
    } else if Contains(Lower(p.mpid), Lower(longer)) {
      ContainsPrefix(Lower(p.mpid), Lower(longer), |term|);
    } else {
      assert longer[..|term|] == term;
      ContainsPrefix(p.phoneNumber, longer, |term|);
    }
  }

  /** A text containing `sub` contains every prefix of `sub`. */
  lemma ContainsPrefix(s: string, sub: string, n: nat)
    requires n <= |sub| && Contains(s, sub)
    ensures Contains(s, sub[..n])
  {
    var i :| OccursAt(s, sub, i);
    assert s[i..i + n] == sub[..n];
    assert OccursAt(s, sub[..n], i);
  }

  /** The follow-up filter, with no search, keeps exactly the patients needing a follow-up. */
  lemma FollowupKeepsExactly(all: seq<Patient>, dateKeep: Value -> bool, p: Patient)
    ensures p in FilterPatients(all, "", "followup", dateKeep) <==>
      p in all && (p.leadStatus in {"Expected to book", "Not explained yet"} || p.bookingStatus == "No interaction")
  {
  }

  /**
   * The date filters, with no search, keep exactly the patients that have a
   * truthy follow-up date which the day comparison accepts.
   */
  lemma DateFiltersNeedFollowUpDate(all: seq<Patient>, activeFilter: string, dateKeep: Value -> bool, p: Patient)
    requires activeFilter == "recent" || activeFilter == "today"
    ensures p in FilterPatients(all, "", activeFilter, dateKeep) <==>
      p in all && Truthy(p.followUpDate) && dateKeep(p.followUpDate)
  {
  }

  /** The notes preview: the first 100 characters and '...' when longer, else the whole text. */
  function NotesPreview(notes: string): (r: string)
    ensures |notes| > 100 ==> |r| == 103 && IsPrefix(r[..100], notes) && r[100..] == "..."
    ensures |notes| <= 100 ==> r == notes
  {
    if |notes| > 100 then Take(notes, 100) + "..." else notes
  }

  /** `DetailItem` shows the value, or 'N/A' when it is falsy. */
  function DetailText(value: Value): (r: Value)
    ensures Truthy(r)
    ensures Truthy(value) ==> r == value
    ensures !Truthy(value) ==> r == Str("N/A")
  {
    if Truthy(value) then value else Str("N/A")
  }

  /** The sidebar's own state; `selections` records the calls of `onSelectPatient`. */
  class Sidebar {
    var showPatientDropdown: bool
    var searchTerm: string
    var activeFilter: string
    var selections: seq<Patient>

    constructor()
      ensures !showPatientDropdown && searchTerm == "" && activeFilter == "search" && selections == []
    {
      showPatientDropdown := false;
      searchTerm := "";
      activeFilter := "search";
      selections := [];
    }

    /** The list the sidebar shows. */
    function Shown(all: seq<Patient>, dateKeep: Value -> bool): seq<Patient>
      reads this
    {
      FilterPatients(all, searchTerm, activeFilter, dateKeep)
    }

    /** The search box's `onChange`. */
    method SetSearchTerm(term: string)
      modifies this
      ensures searchTerm == term
      ensures showPatientDropdown == old(showPatientDropdown) && activeFilter == old(activeFilter) && selections == old(selections)
    {
      searchTerm := term;
    }

    /** One of the four filter buttons. */
    method SetActiveFilter(filter: string)
      requires filter in {"search", "recent", "today", "followup"}
      modifies this
      ensures activeFilter == filter
      ensures showPatientDropdown == old(showPatientDropdown) && searchTerm == old(searchTerm) && selections == old(selections)
    {
      activeFilter := filter;
    }

    /** `handleSelectPatient`: one call of `onSelectPatient`, the dropdown closed, the search cleared. */
    method HandleSelectPatient(p: Patient)
      modifies this
      ensures selections == old(selections) + [p]
      ensures !showPatientDropdown && searchTerm == "" && activeFilter == old(activeFilter)
    {
      selections := selections + [p];
      showPatientDropdown := false;
      searchTerm := "";
    }
  }
}
